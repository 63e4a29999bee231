/** Joining URLs, normalising the route prefix, and the address an executor advertises. */
module Urls {
  import opened Options

  // ---------------------------------------------------------------- stripping

  function StripRight(s: string): (r: string)
    ensures r == "" || r[|r| - 1] != '/'
    ensures r <= s && forall i :: |r| <= i < |s| ==> s[i] == '/'
  {
    if s != "" && s[|s| - 1] == '/' then StripRight(s[..|s| - 1]) else s
  }

  function StripLeft(s: string): (r: string)
    ensures r == "" || r[0] != '/'
    ensures |r| <= |s| && r == s[|s| - |r|..] && forall i :: 0 <= i < |s| - |r| ==> s[i] == '/'
  {
    if s != "" && s[0] == '/' then StripLeft(s[1..]) else s
  }

  function Strip(s: string): (r: string)
    ensures r == "" || (r[0] != '/' && r[|r| - 1] != '/')
  {
    StripRight(StripLeft(s))
  }

  /** `join_url` */
  function JoinUrl(base: string, path: string): string {
    var trimmed := Strip(path);
    if trimmed == "" then StripRight(base) else StripRight(base) + "/" + trimmed
  }

  lemma StripNothing(s: string)
    requires s == "" || (s[0] != '/' && s[|s| - 1] != '/')
    ensures Strip(s) == s && StripRight(s) == s
  {
  }

  /** A joined URL never ends in a slash, whatever its parts end with. */
  lemma JoinedHasNoSlash(base: string, path: string)
    ensures JoinUrl(base, path) == "" || JoinUrl(base, path)[|JoinUrl(base, path)| - 1] != '/'
  {
    hide StripRight, StripLeft, Strip;
    var trimmed := Strip(path);
    if trimmed != "" {
      assert JoinUrl(base, path) == StripRight(base) + "/" + trimmed;
    }
  }

  predicate Slashes(s: string) {
    forall i :: 0 <= i < |s| ==> s[i] == '/'
  }

  lemma {:induction false} StripRightMore(s: string, t: string)
    requires Slashes(t)
    ensures StripRight(s + t) == StripRight(s)
    decreases |t|
  {
    if t == "" {
      assert s + t == s;
    } else {
      var front := t[..|t| - 1];
      assert (s + t)[..|s + t| - 1] == s + front && (s + t)[|s + t| - 1] == '/';
      StripRightMore(s, front);
    }
  }

  lemma {:induction false} StripLeftMore(t: string, s: string)
    requires Slashes(t)
    ensures StripLeft(t + s) == StripLeft(s)
    decreases |t|
  {
    if t == "" {
      assert t + s == s;
    } else {
      assert (t + s)[1..] == t[1..] + s && (t + s)[0] == '/';
      StripLeftMore(t[1..], s);
    }
  }

  lemma {:induction false} StripBetween(path: string, t: string)
    requires Slashes(t)
    ensures Strip(path + t) == Strip(path)
    decreases |path|
  {
    if path == "" {
      assert path + t == t + path;
      StripLeftMore(t, path);
    } else if path[0] == '/' {
      assert (path + t)[1..] == path[1..] + t;
      StripBetween(path[1..], t);
    } else {
      assert StripLeft(path + t) == path + t;
      StripRightMore(path, t);
    }
  }

  /** Redundant slashes at the seam, and at the end of the path, change nothing. */
  lemma JoinIgnoresSlashes(base: string, path: string, a: string, b: string, c: string)
    requires Slashes(a) && Slashes(b) && Slashes(c)
    ensures JoinUrl(base + a, b + (path + c)) == JoinUrl(base, path)
  {
    StripRightMore(base, a);
    StripLeftMore(b, path + c);
    StripBetween(path, c);
  }

  /** Trimmed parts are joined by one slash; a path of slashes adds nothing. */
  lemma JoinOfTrimmed(base: string, path: string)
    requires base == "" || base[|base| - 1] != '/'
    ensures path != "" && path[0] != '/' && path[|path| - 1] != '/' ==> JoinUrl(base, path) == base + "/" + path
    ensures Slashes(path) ==> JoinUrl(base, path) == base
  {
    StripNothingRight(base);
    if path != "" && path[0] != '/' && path[|path| - 1] != '/' { StripNothing(path); }
    if Slashes(path) {
      StripBetween("", path);
      StripNothing("");
      assert "" + path == path;
    }
    hide StripRight, StripLeft, Strip;
  }

  /** Joining twice is joining once with the joined path. */
  lemma JoinIsAssociative(base: string, p: string, q: string)
    requires Strip(p) != "" && Strip(q) != ""
    ensures JoinUrl(JoinUrl(base, p), q) == JoinUrl(base, Strip(p) + "/" + Strip(q))
  {
    hide StripRight, StripLeft, Strip;
    var a, b, c := StripRight(base), Strip(p), Strip(q);
    var path := b + "/" + c;
    assert path[0] == b[0] && path[|path| - 1] == c[|c| - 1];
    StripNothing(path);
    JoinedHasNoSlash(base, p);
    StripNothingRight(JoinUrl(base, p));
    assert a + "/" + b + "/" + c == a + "/" + path;
  }

  // ---------------------------------------------------------------- the route prefix

  const FORBIDDEN: set<char> := {'?', '#', '%', '\\', '<', '>'}

  /** Python's `str.isspace` for one character */
  predicate IsSpace(c: char) {
    var n := c as int;
    || 0x09 <= n <= 0x0D || 0x1C <= n <= 0x20 || n == 0x85 || n == 0xA0 || n == 0x1680
    || 0x2000 <= n <= 0x200A || n == 0x2028 || n == 0x2029 || n == 0x202F || n == 0x205F || n == 0x3000
  }

  predicate Allowed(c: char) {
    c !in FORBIDDEN && c as int >= 0x20 && c as int != 0x7F && !IsSpace(c)
  }

  /** Of the ASCII characters those that print are allowed, but for the space and six others; beyond ASCII
      all but the white space. */
  lemma AllowedMeans(c: char)
    ensures Allowed(c) <==>
              || (0x21 <= c as int <= 0x7E && c !in "?#%\\<>")
              || (c as int >= 0x80
                  && c as int !in {0x85, 0xA0, 0x1680, 0x2000, 0x2001, 0x2002, 0x2003, 0x2004, 0x2005, 0x2006, 0x2007,
                                   0x2008, 0x2009, 0x200A, 0x2028, 0x2029, 0x202F, 0x205F, 0x3000})
  {
    var others := "?#%\\<>";
    assert others == ['?', '#', '%', '\\', '<', '>'];
    assert c in others <==> c in FORBIDDEN;
  }

  predicate SingleSlashes(s: string) {
    forall i :: 0 <= i < |s| - 1 && s[i] == '/' ==> s[i + 1] != '/'
  }

  /** `s.split("/")` */
  function Segments(s: string): (r: seq<string>)
    ensures r != []
  {
    if s == "" then [""]
    else
      var rest := Segments(s[1..]);
      if s[0] == '/' then [""] + rest else [[s[0]] + rest[0]] + rest[1..]
  }

  function Rejoined(parts: seq<string>): string
    requires parts != []
  {
    if |parts| == 1 then parts[0] else parts[0] + "/" + Rejoined(parts[1..])
  }

  lemma RejoinedNext(part: string, rest: seq<string>)
    requires rest != []
    ensures Rejoined([part] + rest) == part + "/" + Rejoined(rest)
  {
    assert ([part] + rest)[1..] == rest;
  }

  lemma RejoinedFirst(c: char, rest: seq<string>)
    requires rest != []
    ensures Rejoined([[c] + rest[0]] + rest[1..]) == [c] + Rejoined(rest)
  {
    assert ([[c] + rest[0]] + rest[1..])[1..] == rest[1..];
    if |rest| > 1 { assert [c] + rest[0] + "/" + Rejoined(rest[1..]) == [c] + (rest[0] + "/" + Rejoined(rest[1..])); }
  }

  /** Splitting is undone by joining with slashes, and no segment has a slash. */
  lemma {:induction false} SegmentsSplit(s: string)
    ensures Rejoined(Segments(s)) == s
    ensures forall part :: part in Segments(s) ==> '/' !in part
  {
    if s != "" {
      SegmentsSplit(s[1..]);
      var rest := Segments(s[1..]);
      if s[0] == '/' {
        assert Segments(s) == [""] + rest;
        RejoinedNext("", rest);
      } else {
        assert Segments(s) == [[s[0]] + rest[0]] + rest[1..];
        RejoinedFirst(s[0], rest);
        assert s == [s[0]] + s[1..];
      }
    }
    hide Rejoined;
  }

  datatype PrefixError = ForbiddenCharacter | ConsecutiveSlashes | DotSegment

  predicate DotFree(s: string) {
    "." !in Segments(s) && ".." !in Segments(s)
  }

  /** `_normalize_prefix` */
  function NormalizePrefix(prefix: string): Result<string, PrefixError> {
    if prefix == "" || prefix == "/" then Ok("")
    else if exists i :: 0 <= i < |prefix| && !Allowed(prefix[i]) then Err(ForbiddenCharacter)
    else if !SingleSlashes(prefix) then Err(ConsecutiveSlashes)
    else
      var b := Inner(prefix);
      if b == "" || !DotFree(b) then Err(DotSegment) else Ok("/" + b)
  }

  /** The static path below which Flask mounts the executor: one leading slash, none at the end. */
  predicate Canonical(p: string) {
    && |p| >= 2 && p[0] == '/' && p[|p| - 1] != '/'
    && (forall i :: 0 <= i < |p| ==> Allowed(p[i]))
    && SingleSlashes(p)
    && DotFree(p[1..])
  }

  /** The four ways to write a canonical prefix. */
  predicate Spells(prefix: string, p: string)
    requires Canonical(p)
  {
    prefix == p || prefix == p + "/" || prefix == p[1..] || prefix == p[1..] + "/"
  }

  /** What is left of an accepted prefix without its first and last slash. */
  function Inner(prefix: string): string
    requires prefix != ""
  {
    var a := if prefix[0] == '/' then prefix[1..] else prefix;
    if a != "" && a[|a| - 1] == '/' then a[..|a| - 1] else a
  }

  lemma InnerShape(prefix: string)
    requires prefix != "" && prefix != "/" && SingleSlashes(prefix)
    ensures
      var b := Inner(prefix);
      && b != "" && b[0] != '/' && b[|b| - 1] != '/'
      && (prefix == "/" + b || prefix == "/" + b + "/" || prefix == b || prefix == b + "/")
  {
    var b := Inner(prefix);
    var i := if prefix[0] == '/' then 1 else 0;
    assert b == prefix[i..i + |b|];
    if b != "" {
      assert b[|b| - 1] == prefix[i + |b| - 1];
      assert i + |b| < |prefix| ==> prefix[i + |b|] == '/';
      assert b[0] == prefix[i];
    }
  }

  /** An accepted prefix is canonical, and the prefix was one of its four spellings. */
  lemma AcceptedIsCanonical(prefix: string)
    requires NormalizePrefix(prefix).Ok? && prefix != "" && prefix != "/"
    ensures var p := NormalizePrefix(prefix).value; Canonical(p) && Spells(prefix, p)
  {
    InnerShape(prefix);
    var b := Inner(prefix);
    assert NormalizePrefix(prefix).value == "/" + b && DotFree(b);
    hide DotFree, Inner, NormalizePrefix, Allowed;
    InnerIsClean(prefix, b);
  }

  lemma InnerIsClean(prefix: string, b: string)
    requires SingleSlashes(prefix) && forall i :: 0 <= i < |prefix| ==> Allowed(prefix[i])
    requires b != "" && b[0] != '/' && b[|b| - 1] != '/' && DotFree(b)
    requires prefix == "/" + b || prefix == "/" + b + "/" || prefix == b || prefix == b + "/"
    ensures Canonical("/" + b) && Spells(prefix, "/" + b)
  {
    hide DotFree, SingleSlashes, Allowed;
    var i := InnerIsPart(prefix, b);
    PathIsClean(prefix, i, b, "/" + b);
    PathIsCanonical("/" + b, b);
  }

  lemma PathIsCanonical(p: string, b: string)
    requires p == "/" + b && b != "" && b[|b| - 1] != '/' && DotFree(b)
    requires SingleSlashes(p) && forall j :: 0 <= j < |p| ==> Allowed(p[j])
    ensures Canonical(p) && p[1..] == b
  {
    assert p[1..] == b;
    hide DotFree, SingleSlashes, Allowed;
  }

  lemma InnerIsPart(prefix: string, b: string) returns (i: nat)
    requires prefix == "/" + b || prefix == "/" + b + "/" || prefix == b || prefix == b + "/"
    ensures i + |b| <= |prefix| && forall j :: 0 <= j < |b| ==> b[j] == prefix[i + j]
  {
    i := if prefix == "/" + b || prefix == "/" + b + "/" then 1 else 0;
  }

  /** Character by character: `b` is part of a clean prefix, and `p` is `b` behind a slash. */
  lemma PathIsClean(prefix: string, i: nat, b: string, p: string)
    requires SingleSlashes(prefix) && forall j :: 0 <= j < |prefix| ==> Allowed(prefix[j])
    requires i + |b| <= |prefix| && forall j :: 0 <= j < |b| ==> b[j] == prefix[i + j]
    requires b != "" && b[0] != '/'
    requires |p| == |b| + 1 && p[0] == '/' && forall j :: 0 < j < |p| ==> p[j] == b[j - 1]
    ensures SingleSlashes(p) && forall j :: 0 <= j < |p| ==> Allowed(p[j])
  {
    assert Allowed('/');
    hide Allowed;
    forall j | 0 <= j < |p| - 1 && p[j] == '/' ensures p[j + 1] != '/' {
      assert p[j + 1] == b[j];
      if j > 0 { assert prefix[i + j - 1] == '/' && b[j] == prefix[i + j]; }
    }
    forall j | 0 <= j < |p| ensures Allowed(p[j]) {
      if j > 0 { assert p[j] == prefix[i + j - 1]; }
    }
  }

  lemma InnerOfSpelling(prefix: string, p: string)
    requires |p| >= 2 && p[0] == '/' && p[1] != '/' && p[|p| - 1] != '/'
    requires prefix == p || prefix == p + "/" || prefix == p[1..] || prefix == p[1..] + "/"
    ensures prefix != "" && Inner(prefix) == p[1..]
  {
    var q := p[1..];
    assert q[0] == p[1] && q[|q| - 1] == p[|p| - 1];
    if prefix == p || prefix == p + "/" {
      assert prefix[1..] == q || prefix[1..] == q + "/";
    }
    assert (q + "/")[..|q|] == q;
  }

  lemma SpellingIsClean(prefix: string, p: string)
    requires Canonical(p) && Spells(prefix, p)
    ensures prefix != "" && SingleSlashes(prefix) && forall j :: 0 <= j < |prefix| ==> Allowed(prefix[j])
  {
    hide DotFree;
    var i := if prefix == p || prefix == p + "/" then 0 else 1;
    assert forall j :: 0 <= j < |prefix| ==> prefix[j] == if i + j < |p| then p[i + j] else '/';
    hide Spells;
    forall j | 0 <= j < |prefix| - 1 && prefix[j] == '/' ensures prefix[j + 1] != '/' {
      assert i + j < |p| - 1 && p[i + j] == '/';
    }
  }

  /** Every spelling of a canonical prefix is accepted as that prefix. */
  lemma SpellingIsAccepted(prefix: string, p: string)
    requires Canonical(p) && Spells(prefix, p)
    ensures NormalizePrefix(prefix) == Ok(p)
  {
    SpellingIsClean(prefix, p);
    assert |p| >= 2 && p[0] == '/' && p[1] != '/' && p[|p| - 1] != '/';
    InnerOfSpelling(prefix, p);
    assert prefix != "/" by { assert |p[1..]| > 0; }
    assert DotFree(p[1..]);
    hide DotFree, Inner, SingleSlashes, Allowed, Canonical, Spells;
    assert "/" + p[1..] == p;
  }

  /** `_normalize_prefix` accepts exactly the four spellings of each canonical prefix, and maps each to
      it; the empty prefix has two spellings. */
  lemma NormalizeExactly(prefix: string, p: string)
    ensures NormalizePrefix(prefix) == Ok(p) <==>
              if p == "" then prefix == "" || prefix == "/" else Canonical(p) && Spells(prefix, p)
  {
    if NormalizePrefix(prefix) == Ok(p) && prefix != "" && prefix != "/" {
      AcceptedIsCanonical(prefix);
    }
    if p != "" && Canonical(p) && Spells(prefix, p) {
      SpellingIsAccepted(prefix, p);
    }
  }

  /** Why any other prefix is refused: a character that is not allowed, else two slashes in a row, else a dot
      segment. */
  lemma NormalizeRefuses(prefix: string)
    requires prefix != "" && prefix != "/"
    ensures NormalizePrefix(prefix) == Err(ForbiddenCharacter) <==>
              exists i :: 0 <= i < |prefix| && !Allowed(prefix[i])
    ensures NormalizePrefix(prefix) == Err(ConsecutiveSlashes) <==>
              (forall i :: 0 <= i < |prefix| ==> Allowed(prefix[i])) && !SingleSlashes(prefix)
    ensures NormalizePrefix(prefix) == Err(DotSegment) <==>
              && (forall i :: 0 <= i < |prefix| ==> Allowed(prefix[i])) && SingleSlashes(prefix)
              && exists part :: part in Segments(Inner(prefix)) && part in {".", ".."}
  {
    if SingleSlashes(prefix) { InnerShape(prefix); }
  }

  /** Normalising a normalised prefix changes nothing. */
  lemma NormalizeIsIdempotent(prefix: string)
    requires NormalizePrefix(prefix).Ok?
    ensures NormalizePrefix(NormalizePrefix(prefix).value) == NormalizePrefix(prefix)
  {
    var p := NormalizePrefix(prefix).value;
    NormalizeExactly(prefix, p);
    NormalizeExactly(p, p);
  }

  // ---------------------------------------------------------------- the advertised address

  /** `_normalize_address` */
  function NormalizeAddress(value: string): string {
    if value == "" then "" else StripRight(value)
  }

  /** Only slashes at the end of an address are dropped, and all of them. */
  lemma NormalizeAddressMeans(value: string)
    ensures
      var r := NormalizeAddress(value);
      && r <= value && Slashes(value[|r|..])
      && (r == "" || r[|r| - 1] != '/')
  {
  }

  /** `_apply_route_prefix` */
  function ApplyRoutePrefix(address: string, prefix: string): string {
    if address == "" || prefix == "" then address else JoinUrl(address, prefix)
  }

  const SUFFIXES: seq<string> := ["/beat", "/idleBeat", "/run", "/kill", "/log"]

  /** `executor_paths` */
  function ExecutorPaths(prefix: string): set<string> {
    set i | 0 <= i < |SUFFIXES| :: prefix + SUFFIXES[i]
  }

  lemma ExecutorPathsAre(prefix: string)
    ensures ExecutorPaths(prefix)
            == {prefix + "/beat", prefix + "/idleBeat", prefix + "/run", prefix + "/kill", prefix + "/log"}
  {
    var all := {prefix + "/beat", prefix + "/idleBeat", prefix + "/run", prefix + "/kill", prefix + "/log"};
    forall path | path in all ensures path in ExecutorPaths(prefix) {
      var i := if path == prefix + "/beat" then 0 else if path == prefix + "/idleBeat" then 1
               else if path == prefix + "/run" then 2 else if path == prefix + "/kill" then 3 else 4;
      assert path == prefix + SUFFIXES[i];
    }
  }

  /** For every accepted prefix and every non-empty base address, the advertised address plus a suffix
      is the trimmed base plus a route that Flask mounts, for each suffix. */
  lemma AdvertisedAddressReachesRoutes(address: string, prefix: string, i: nat)
    requires NormalizePrefix(prefix).Ok? && NormalizeAddress(address) != "" && i < |SUFFIXES|
    ensures
      var p := NormalizePrefix(prefix).value;
      var base := NormalizeAddress(address);
      var advertised := ApplyRoutePrefix(base, p);
      && advertised == base + p
      && advertised + SUFFIXES[i] == base + (p + SUFFIXES[i])
      && p + SUFFIXES[i] in ExecutorPaths(p)
      && base[|base| - 1] != '/'
  {
    var p := NormalizePrefix(prefix).value;
    var base := NormalizeAddress(address);
    NormalizeExactly(prefix, p);
    hide NormalizePrefix, StripRight, Canonical, Spells, JoinUrl;
    if p != "" {
      PrefixIsJoined(base, p);
    }
    assert base + p + SUFFIXES[i] == base + (p + SUFFIXES[i]);
  }

  lemma StripOneSlash(q: string)
    requires q != "" && q[0] != '/' && q[|q| - 1] != '/'
    ensures Strip("/" + q) == q
  {
    assert ("/" + q)[1..] == q;
    StripNothingRight(q);
  }

  lemma CanonicalStart(p: string)
    requires Canonical(p)
    ensures |p| >= 2 && p[0] == '/' && p[1] != '/' && p[|p| - 1] != '/'
  {
    hide DotFree, Allowed;
  }

  lemma PrefixIsJoined(base: string, p: string)
    requires Canonical(p) && base != "" && base[|base| - 1] != '/'
    ensures JoinUrl(base, p) == base + p
  {
    hide StripRight, StripLeft, Strip, DotFree, Allowed;
    CanonicalStart(p);
    hide Canonical, SingleSlashes;
    var q := p[1..];
    assert q[0] == p[1] && q[|q| - 1] == p[|p| - 1] && p == "/" + q;
    StripOneSlash(q);
    StripNothingRight(base);
    assert base + "/" + q == base + p;
  }

  lemma StripNothingRight(s: string)
    requires s == "" || s[|s| - 1] != '/'
    ensures StripRight(s) == s
  {
  }

  /** Different routes never collide, so the five routes of a prefix are five paths. */
  lemma RoutesAreDistinct(prefix: string, i: nat, j: nat)
    requires i < |SUFFIXES| && j < |SUFFIXES| && prefix + SUFFIXES[i] == prefix + SUFFIXES[j]
    ensures i == j
  {
    assert (prefix + SUFFIXES[i])[|prefix|..] == SUFFIXES[i];
    assert (prefix + SUFFIXES[j])[|prefix|..] == SUFFIXES[j];
    assert SUFFIXES[i][1] == SUFFIXES[j][1];
  }
}
