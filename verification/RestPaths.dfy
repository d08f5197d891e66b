/** The path algebra behind the data-logger endpoints. */
module RestPaths {

  // The three string functions, and the loops that compute them

  function Rooted(path: string): string {
    if path == "" then "/" else if path[0] == '/' then path else "/" + path
  }

  function Trimmed(path: string): string {
    if |path| > 1 && path[|path| - 1] == '/' then Trimmed(path[..|path| - 1]) else path
  }

  function Stripped(path: string): string {
    if path != "" && path[0] == '/' then Stripped(path[1..]) else path
  }

  function Base(path: string): string { Trimmed(Rooted(path)) }

  function Join(lhs: string, rhs: string): string {
    if Stripped(rhs) == "" then Base(lhs) else Base(lhs) + "/" + Stripped(rhs)
  }

  method TrimTrailingSlash(path: string) returns (trimmed: string)
    ensures trimmed == Trimmed(path)
  {
    trimmed := path;
    while |trimmed| > 1 && trimmed[|trimmed| - 1] == '/'
      invariant Trimmed(trimmed) == Trimmed(path)
    {
      trimmed := trimmed[..|trimmed| - 1];
    }
  }

  method JoinPaths(lhs: string, rhs: string) returns (joined: string)
    ensures joined == Join(lhs, rhs)
  {
    var base := TrimTrailingSlash(Rooted(lhs));
    var tail := rhs;
    while tail != "" && tail[0] == '/'
      invariant Stripped(tail) == Stripped(rhs)
      decreases |tail|
    {
      tail := tail[1..];
    }
    if tail == "" { return base; }
    joined := base + "/" + tail;
  }

  datatype RestPaths = RestPaths(base: string, start: string, stop: string)

  function Paths(basePath: string, dataloggerPath: string): RestPaths {
    var base := Join(basePath, dataloggerPath);
    RestPaths(base, Join(base, "start"), Join(base, "stop"))
  }

  method BuildPaths(basePath: string, dataloggerPath: string) returns (paths: RestPaths)
    ensures paths == Paths(basePath, dataloggerPath)
  {
    var base := JoinPaths(basePath, dataloggerPath);
    var start := JoinPaths(base, "start");
    var stop := JoinPaths(base, "stop");
    paths := RestPaths(base, start, stop);
  }

  /** `portText` is the decimal text of the configured port. */
  function BuildUrl(ip: string, portText: string, path: string): string {
    "http://" + ip + ":" + portText + Rooted(path)
  }

  // Leading slashes

  lemma {:induction false} StrippedConcat(x: string, y: string)
    ensures Stripped(x + y) == if Stripped(x) != "" then Stripped(x) + y else Stripped(y)
  {
    if x == "" {
      assert x + y == y;
    } else if x[0] == '/' {
      assert (x + y)[1..] == x[1..] + y;
      StrippedConcat(x[1..], y);
    }
  }

  lemma {:induction false} StrippedHead(path: string)
    ensures Stripped(path) != "" ==> Stripped(path)[0] != '/'
    ensures |Stripped(path)| <= |path|
    ensures path == path[..|path| - |Stripped(path)|] + Stripped(path)
  {
    if path != "" && path[0] == '/' { StrippedHead(path[1..]); }
  }

  lemma StrippedFixed(path: string)
    requires path != "" ==> path[0] != '/'
    ensures Stripped(path) == path
  {}

  // Trailing slashes

  lemma {:induction false} TrimmedShape(path: string)
    ensures Trimmed(path) <= path
    ensures path != "" ==> Trimmed(path) != "" && Trimmed(path)[0] == path[0]
    ensures |Trimmed(path)| > 1 ==> Trimmed(path)[|Trimmed(path)| - 1] != '/'
    ensures Trimmed(Trimmed(path)) == Trimmed(path)
  {
    if |path| > 1 && path[|path| - 1] == '/' { TrimmedShape(path[..|path| - 1]); }
  }

  /** A tail that starts with another character shields what is in front of it. */
  lemma {:induction false} TrimmedConcat(x: string, t: string)
    requires t != "" && t[0] != '/'
    ensures Trimmed(x + t) == x + Trimmed(t)
  {
    if |t| > 1 && t[|t| - 1] == '/' {
      var n := |t| - 1;
      TrimmedConcat(x, t[..n]);
      assert (x + t)[..|x + t| - 1] == x + t[..n];
    }
  }

  lemma BaseShape(path: string)
    ensures Base(path) != "" && Base(path)[0] == '/'
    ensures Rooted(Base(path)) == Base(path) && Trimmed(Base(path)) == Base(path)
    ensures |Base(path)| > 1 ==> Base(path)[|Base(path)| - 1] != '/'
  {
    TrimmedShape(Rooted(path));
  }

  /** Dropping the leading slashes of a base leaves the trimmed tail of the path. */
  lemma StrippedBase(path: string)
    ensures Stripped(Base(path)) == if Stripped(path) == "" then "" else Trimmed(Stripped(path))
  {
    var t := Stripped(path);
    StrippedHead(path);
    if t == "" {
      AllSlashesTrim(Rooted(path));
      assert Stripped("/") == Stripped("/"[1..]) == "";
      assert Base(path) == "/";
    } else {
      var r := Rooted(path);
      RootedLead(path);
      var lead := r[..|r| - |t|];
      TrimmedConcat(lead, t);
      TrimmedShape(t);
      StrippedFixed(Trimmed(t));
      StrippedConcat(lead, Trimmed(t));
    }
  }

  /** Rooting a path only touches its leading slashes. */
  lemma RootedLead(path: string)
    ensures Stripped(Rooted(path)) == Stripped(path)
    ensures var r, t := Rooted(path), Stripped(path);
            |t| <= |r| && r == r[..|r| - |t|] + t && Stripped(r[..|r| - |t|]) == ""
  {
    var r := Rooted(path);
    if path == "" || path[0] != '/' { assert r[1..] == path; }
    StrippedHead(path);
    StrippedHead(r);
    LeadVanishes(r);
  }

  lemma {:induction false} LeadVanishes(path: string)
    ensures |Stripped(path)| <= |path| && Stripped(path[..|path| - |Stripped(path)|]) == ""
  {
    StrippedHead(path);
    if path != "" && path[0] == '/' {
      LeadVanishes(path[1..]);
      var n := |path| - |Stripped(path)|;
      assert path[..n][1..] == path[1..][..n - 1];
    } else {
      assert path[..0] == "";
    }
  }

  lemma {:induction false} AllSlashesTrim(path: string)
    requires path != "" && Stripped(path) == ""
    ensures Trimmed(path) == "/"
    decreases |path|
  {
    AllSlashes(path);
    if |path| > 1 {
      StrippedPrefix(path, |path| - 1);
      AllSlashesTrim(path[..|path| - 1]);
    } else {
      assert path == [path[0]];
    }
  }

  lemma {:induction false} AllSlashes(path: string)
    ensures Stripped(path) == "" <==> forall i :: 0 <= i < |path| ==> path[i] == '/'
  {
    if path != "" && path[0] == '/' {
      AllSlashes(path[1..]);
      assert forall i :: 0 < i < |path| ==> path[i] == path[1..][i - 1];
    }
  }

  lemma StrippedPrefix(path: string, n: nat)
    requires n <= |path| && Stripped(path) == ""
    ensures Stripped(path[..n]) == ""
  {
    AllSlashes(path);
    AllSlashes(path[..n]);
  }

  // The laws

  /** `join_paths` is associative on all strings, empty and all-slash ones included. */
  lemma JoinAssociative(a: string, b: string, c: string)
    ensures Join(Join(a, b), c) == Join(a, Join(b, c))
  {
    var t, u := Stripped(b), Stripped(c);
    JoinBase(a, b);
    StrippedJoin(b, c);
    StrippedHead(b);
    if t != "" { TrimmedShape(t); }
    Seam(Base(a), Trimmed(t), u);
  }

  lemma Seam(x: string, y: string, z: string)
    ensures x + "/" + y + "/" + z == x + "/" + (y + "/" + z)
  {}

  /** The tail a joined path contributes when it is joined on the right. */
  lemma StrippedJoin(b: string, c: string)
    ensures var t, u := Stripped(b), Stripped(c);
            Stripped(Join(b, c)) == if u == "" then (if t == "" then "" else Trimmed(t))
                                    else if t == "" then u else Trimmed(t) + "/" + u
  {
    var t, u := Stripped(b), Stripped(c);
    StrippedBase(b);
    StrippedHead(b);
    StrippedHead(c);
    if t != "" { TrimmedShape(t); }
    if u != "" {
      StrippedConcat(Base(b), "/" + u);
      assert Base(b) + ("/" + u) == Base(b) + "/" + u;
      StrippedFixed(u);
      assert ("/" + u)[1..] == u;
      if t != "" { assert Trimmed(t) + ("/" + u) == Trimmed(t) + "/" + u; }
    }
  }

  /** The base of a joined path. */
  lemma JoinBase(a: string, b: string)
    ensures Base(Join(a, b)) == if Stripped(b) == "" then Base(a) else Base(a) + "/" + Trimmed(Stripped(b))
    ensures Rooted(Join(a, b)) == Join(a, b)
  {
    BaseShape(a);
    StrippedHead(b);
    if Stripped(b) != "" { TrimmedConcat(Base(a) + "/", Stripped(b)); }
  }

  /** The endpoint paths as one join of the base path with a joined suffix. */
  lemma EndpointsAsOneJoin(basePath: string, dataloggerPath: string)
    ensures Paths(basePath, dataloggerPath).start == Join(basePath, Join(dataloggerPath, "start"))
    ensures Paths(basePath, dataloggerPath).stop == Join(basePath, Join(dataloggerPath, "stop"))
  {
    JoinAssociative(basePath, dataloggerPath, "start");
    JoinAssociative(basePath, dataloggerPath, "stop");
  }

  function Slashes(n: nat): string { if n == 0 then "" else Slashes(n - 1) + "/" }

  lemma {:induction false} TrimsSlashes(r: string, n: nat)
    requires r != ""
    ensures Trimmed(r + Slashes(n)) == Trimmed(r)
  {
    if n == 0 {
      assert r + "" == r;
    } else {
      var longer := r + Slashes(n);
      assert longer[..|longer| - 1] == r + Slashes(n - 1);
      TrimsSlashes(r, n - 1);
    }
  }

  lemma {:induction false} SlashFirst(n: nat)
    requires n > 0
    ensures Slashes(n) == "/" + Slashes(n - 1)
  {
    if n > 1 { SlashFirst(n - 1); }
  }

  lemma RootedConcat(x: string, y: string)
    requires x != ""
    ensures Rooted(x + y) == Rooted(x) + y
  {
    if x[0] == '/' {
      assert (x + y)[0] == '/';
    } else {
      assert (x + y)[0] == x[0];
      assert "/" + (x + y) == ("/" + x) + y;
    }
  }

  lemma SlashesAlone(n: nat)
    ensures Base(Slashes(n)) == "/"
  {
    if n > 0 {
      SlashFirst(n);
      TrimsSlashes("/", n - 1);
    }
  }

  lemma BaseIgnoresTrailing(path: string, n: nat)
    ensures Base(path + Slashes(n)) == Base(path)
  {
    if path == "" {
      SlashesAlone(n);
      assert path + Slashes(n) == Slashes(n);
    } else {
      RootedConcat(path, Slashes(n));
      TrimsSlashes(Rooted(path), n);
    }
  }

  lemma {:induction false} StripsSlashes(n: nat)
    ensures Stripped(Slashes(n)) == ""
  {
    if n > 0 {
      StripsSlashes(n - 1);
      StrippedConcat(Slashes(n - 1), "/");
      assert "/"[1..] == "";
    }
  }

  lemma JoinIgnoresLeading(a: string, n: nat, b: string)
    ensures Join(a, Slashes(n) + b) == Join(a, b)
  {
    StripsSlashes(n);
    StrippedConcat(Slashes(n), b);
  }

  /** Extra slashes at the seams of the configuration change no endpoint. */
  lemma SlashInsensitive(basePath: string, dataloggerPath: string, i: nat, j: nat, k: nat)
    ensures Paths(basePath + Slashes(i), Slashes(j) + dataloggerPath) == Paths(basePath, dataloggerPath)
    ensures Paths(basePath, dataloggerPath + Slashes(k)).start == Paths(basePath, dataloggerPath).start
    ensures Paths(basePath, dataloggerPath + Slashes(k)).stop == Paths(basePath, dataloggerPath).stop
  {
    BaseIgnoresTrailing(basePath, i);
    JoinIgnoresLeading(basePath + Slashes(i), j, dataloggerPath);
    BaseIgnoresTrailing(dataloggerPath, k);
    EndpointsAsOneJoin(basePath, dataloggerPath);
    EndpointsAsOneJoin(basePath, dataloggerPath + Slashes(k));
  }

  lemma JoinWord(path: string, word: string)
    requires word != "" && word[0] != '/'
    ensures Join(path, word) == Base(path) + "/" + word
  {
    StrippedFixed(word);
  }

  /** The three endpoints are pairwise distinct and absolute, so building a URL from one
      never rewrites it. */
  lemma DistinctEndpoints(basePath: string, dataloggerPath: string, ip: string, portText: string)
    ensures var p := Paths(basePath, dataloggerPath);
            && p.base != p.start && p.base != p.stop && p.start != p.stop
            && p.base != "" && p.base[0] == '/'
            && p.start != "" && p.start[0] == '/' && p.stop != "" && p.stop[0] == '/'
            && BuildUrl(ip, portText, p.base) == "http://" + ip + ":" + portText + p.base
            && BuildUrl(ip, portText, p.start) == "http://" + ip + ":" + portText + p.start
            && BuildUrl(ip, portText, p.stop) == "http://" + ip + ":" + portText + p.stop
  {
    var p := Paths(basePath, dataloggerPath);
    JoinBase(basePath, dataloggerPath);
    BaseShape(basePath);
    BaseShape(p.base);
    JoinWord(p.base, "start");
    JoinWord(p.base, "stop");
    assert p.start[|p.start| - 1] == 't' && p.stop[|p.stop| - 1] == 'p';
    assert p.base == p.start || p.base == p.stop ==> Trimmed(p.base) == p.base;
  }

  // Double slashes

  predicate DoubleAt(path: string, i: int) {
    0 <= i && i + 1 < |path| && path[i] == '/' && path[i + 1] == '/'
  }

  predicate Clean(path: string) { forall i :: 0 <= i < |path| ==> !DoubleAt(path, i) }

  lemma CleanPart(path: string, lo: nat, hi: nat)
    requires lo <= hi <= |path| && Clean(path)
    ensures Clean(path[lo..hi])
  {
    forall i | 0 <= i < hi - lo ensures !DoubleAt(path[lo..hi], i) {
      assert !DoubleAt(path, lo + i);
    }
  }

  /** A slash between two parts is clean exactly when the parts are and do not add to it. */
  lemma CleanSeam(x: string, y: string)
    requires x != "" && y != "" && y[0] != '/'
    ensures Clean(x + "/" + y) <==> Clean(x) && x[|x| - 1] != '/' && Clean(y)
  {
    var z := x + "/" + y;
    if Clean(z) {
      CleanPart(z, 0, |x|);
      assert z[0..|x|] == x;
      CleanPart(z, |x| + 1, |z|);
      assert z[|x| + 1..|z|] == y;
      assert !DoubleAt(z, |x| - 1);
    }
    if Clean(x) && x[|x| - 1] != '/' && Clean(y) {
      forall i | 0 <= i < |z| ensures !DoubleAt(z, i) {
        if i < |x| { assert !DoubleAt(x, i); }
        if i > |x| { assert !DoubleAt(y, i - |x| - 1); }
      }
    }
  }

  /** The base of a path is a lone slash exactly when the path has no other character. */
  lemma BaseIsRoot(path: string)
    ensures Base(path) == "/" <==> Stripped(path) == ""
  {
    StrippedBase(path);
    StrippedHead(path);
    BaseShape(path);
    if Stripped(path) == "" {
      RootedLead(path);
      AllSlashesTrim(Rooted(path));
    } else {
      TrimmedShape(Stripped(path));
      assert "/"[1..] == "";
    }
  }

  /** What configurations give clean endpoints: a base path with a character other than a
      slash, no double slash inside it (trailing ones are trimmed), and none inside the
      data-logger path (leading ones are dropped). */
  predicate CleanConfig(basePath: string, dataloggerPath: string) {
    Stripped(basePath) != "" && Clean(Base(basePath)) && Clean(Stripped(dataloggerPath))
  }

  lemma CleanStartOrStop(a: string, b: string, word: string)
    requires word != "" && word[0] != '/' && Clean(word)
    ensures Clean(Join(Join(a, b), word)) <==>
            Stripped(a) != "" && Clean(Base(a)) && (Stripped(b) != "" ==> Clean(Trimmed(Stripped(b))))
  {
    var t := Stripped(b);
    StrippedHead(b);
    BaseShape(a);
    BaseIsRoot(a);
    JoinBase(a, b);
    BaseShape(Join(a, b));
    JoinWord(Join(a, b), word);
    CleanSeam(Base(Join(a, b)), word);
    if t != "" {
      TrimmedShape(t);
      CleanSeam(Base(a), Trimmed(t));
    }
    if |Base(a)| == 1 { assert Base(a) == "/"; }
  }

  lemma CleanBase(a: string, b: string)
    ensures Clean(Join(a, b)) <==>
            Clean(Base(a)) && (Stripped(b) != "" ==> Stripped(a) != "" && Clean(Stripped(b)))
  {
    StrippedHead(b);
    BaseShape(a);
    BaseIsRoot(a);
    if Stripped(b) != "" { CleanSeam(Base(a), Stripped(b)); }
    if |Base(a)| == 1 { assert Base(a) == "/"; }
  }

  lemma CleanTrimmed(path: string)
    requires Clean(path)
    ensures Clean(Trimmed(path))
  {
    TrimmedShape(path);
    CleanPart(path, 0, |Trimmed(path)|);
    assert path[0..|Trimmed(path)|] == Trimmed(path);
  }

  /** All three endpoints are free of "//" exactly for clean configurations. */
  lemma CleanEndpoints(basePath: string, dataloggerPath: string)
    ensures var p := Paths(basePath, dataloggerPath);
            Clean(p.base) && Clean(p.start) && Clean(p.stop) <==> CleanConfig(basePath, dataloggerPath)
  {
    CleanBase(basePath, dataloggerPath);
    assert Clean("start") && Clean("stop");
    CleanStartOrStop(basePath, dataloggerPath, "start");
    CleanStartOrStop(basePath, dataloggerPath, "stop");
    if Clean(Stripped(dataloggerPath)) { CleanTrimmed(Stripped(dataloggerPath)); }
  }

  /** In the configuration's own terms: no "//" on either side and a base path that is not
      only slashes. */
  lemma CleanInputs(basePath: string, dataloggerPath: string)
    requires Clean(basePath) && Clean(dataloggerPath)
    requires exists i :: 0 <= i < |basePath| && basePath[i] != '/'
    ensures CleanConfig(basePath, dataloggerPath)
  {
    AllSlashes(basePath);
    CleanRooted(basePath);
    var r := Rooted(basePath);
    TrimmedShape(r);
    CleanPart(r, 0, |Trimmed(r)|);
    assert r[0..|Trimmed(r)|] == Base(basePath);
    StrippedHead(dataloggerPath);
    var n := |dataloggerPath| - |Stripped(dataloggerPath)|;
    CleanPart(dataloggerPath, n, |dataloggerPath|);
    assert dataloggerPath[n..|dataloggerPath|] == Stripped(dataloggerPath);
  }

  lemma CleanRooted(path: string)
    requires Clean(path)
    ensures Clean(Rooted(path))
  {
    var r := Rooted(path);
    forall i | 0 <= i < |r| ensures !DoubleAt(r, i) {
      if r != path && path != "" && i > 0 { assert r[1..] == path && !DoubleAt(path, i - 1); }
      if r == path { assert !DoubleAt(path, i); }
    }
  }

  /** Without the hypothesis the seam doubles: a root base path gives "//x". */
  lemma RootBaseDoubles()
    ensures Join("/", "x") == "//x" && !Clean(Join("/", "x"))
  {
    StrippedFixed("x");
    assert Base("/") == "/";
    assert DoubleAt(Join("/", "x"), 0);
  }
}
