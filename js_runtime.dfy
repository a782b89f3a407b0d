/** The JavaScript built-ins the ride core relies on, stated exactly:
    `Math.round`, the `\s` class and `String.prototype.trim`, a global
    literal `replace`, `split`/`join` on a separator, `Array.prototype.find`,
    and truthiness of optional strings. */
module JsRuntime {
  import opened Wrappers

  // ---------------------------------------------------------------- Math.round

  /** `Math.round` on a finite number: the nearest integer, halves rounded up. */
  function Round(x: real): (r: int)
    ensures r as real - 0.5 <= x < r as real + 0.5
  {
    (x + 0.5).Floor
  }

  /** Rounding never reverses the order of two numbers. */
  lemma RoundMonotonic(x: real, y: real)
    requires x <= y
    ensures Round(x) <= Round(y)
  {
  }

  // ---------------------------------------------------------------- whitespace

  /** The characters matched by the regular-expression class `\s`, which are
      also the ones `trim` removes: WhiteSpace and LineTerminator of ECMA-262. */
  predicate IsWhiteSpace(c: char) {
    || c == '\t' || c == '\n' || c == '\U{B}' || c == '\U{C}' || c == '\r' || c == ' '
    || c == '\U{A0}' || c == '\U{1680}'
    || ('\U{2000}' <= c <= '\U{200A}')
    || c == '\U{2028}' || c == '\U{2029}' || c == '\U{202F}' || c == '\U{205F}'
    || c == '\U{3000}' || c == '\U{FEFF}'
  }

  predicate NoWhiteSpace(s: string) {
    forall i :: 0 <= i < |s| ==> !IsWhiteSpace(s[i])
  }

  function TrimStart(s: string): string {
    if s != [] && IsWhiteSpace(s[0]) then TrimStart(s[1..]) else s
  }

  /** `TrimStart` keeps a suffix that does not start with whitespace. */
  lemma {:induction false} TrimStartShape(s: string)
    ensures |TrimStart(s)| <= |s| && TrimStart(s) == s[|s| - |TrimStart(s)|..]
    ensures TrimStart(s) == [] || !IsWhiteSpace(TrimStart(s)[0])
  {
    if s != [] && IsWhiteSpace(s[0]) {
      TrimStartShape(s[1..]);
      assert s[1..][|s[1..]| - |TrimStart(s)|..] == s[|s| - |TrimStart(s)|..];
    }
  }

  function TrimEnd(s: string): string {
    if s != [] && IsWhiteSpace(s[|s| - 1]) then TrimEnd(s[..|s| - 1]) else s
  }

  /** `TrimEnd` keeps a prefix that does not end with whitespace. */
  lemma {:induction false} TrimEndShape(s: string)
    ensures |TrimEnd(s)| <= |s| && TrimEnd(s) == s[..|TrimEnd(s)|]
    ensures TrimEnd(s) == [] || !IsWhiteSpace(TrimEnd(s)[|TrimEnd(s)| - 1])
  {
    if s != [] && IsWhiteSpace(s[|s| - 1]) {
      TrimEndShape(s[..|s| - 1]);
      assert s[..|s| - 1][..|TrimEnd(s)|] == s[..|TrimEnd(s)|];
    }
  }

  /** `String.prototype.trim`: drops leading and trailing whitespace only. */
  function Trim(s: string): (r: string)
  {
    TrimEnd(TrimStart(s))
  }

  /** What `trim` keeps has no whitespace at either end, so trimming twice
      is the same as trimming once. */
  lemma TrimEnds(s: string)
    ensures |Trim(s)| <= |s|
    ensures Trim(s) == [] || (!IsWhiteSpace(Trim(s)[0]) && !IsWhiteSpace(Trim(s)[|Trim(s)| - 1]))
    ensures Trim(Trim(s)) == Trim(s)
  {
    var t := TrimStart(s);
    var r := Trim(s);
    TrimStartShape(s);
    TrimEndShape(t);
    if r != [] {
      assert r[0] == t[0];
      assert TrimStart(r) == r;
      assert TrimEnd(r) == r;
    }
  }

  /** A string without whitespace is left as it is by `trim`. */
  lemma {:induction false} TrimNoWhiteSpace(s: string)
    requires NoWhiteSpace(s)
    ensures Trim(s) == s
  {
    assert TrimStart(s) == s;
    assert TrimEnd(s) == s;
  }

  /** `replace(/\s/g, '')`: removes every whitespace character, inner ones too. */
  function RemoveWhiteSpace(s: string): (r: string)
    ensures |r| <= |s|
    ensures NoWhiteSpace(r)
    ensures NoWhiteSpace(s) ==> r == s
  {
    if s == [] then []
    else if IsWhiteSpace(s[0]) then RemoveWhiteSpace(s[1..])
    else [s[0]] + RemoveWhiteSpace(s[1..])
  }

  /** Removing whitespace works piece by piece: it keeps every other
      character of both halves, in order. */
  lemma {:induction false} RemoveWhiteSpaceConcat(a: string, b: string)
    ensures RemoveWhiteSpace(a + b) == RemoveWhiteSpace(a) + RemoveWhiteSpace(b)
    decreases |a|
  {
    if a == [] {
      assert a + b == b;
    } else {
      var c, t := a[0], a[1..];
      assert a == [c] + t;
      assert a + b == [c] + (t + b);
      var front := RemoveWhiteSpaceCons(c, t + b);
      var front' := RemoveWhiteSpaceCons(c, t);
      RemoveWhiteSpaceConcat(t, b);
      var rt, rb := RemoveWhiteSpace(t), RemoveWhiteSpace(b);
      assert front + (rt + rb) == (front + rt) + rb;
    }
  }

  /** Removal from a string with a first character: that character is kept
      when it is not whitespace. */
  lemma RemoveWhiteSpaceCons(c: char, t: string) returns (front: string)
    ensures front == (if IsWhiteSpace(c) then [] else [c])
    ensures RemoveWhiteSpace([c] + t) == front + RemoveWhiteSpace(t)
  {
    front := if IsWhiteSpace(c) then [] else [c];
    assert ([c] + t)[0] == c && ([c] + t)[1..] == t;
  }

  /** A character survives the removal exactly when it occurs in the input
      and is not whitespace. */
  lemma {:induction false} RemoveWhiteSpaceKeeps(s: string, c: char)
    ensures c in RemoveWhiteSpace(s) <==> c in s && !IsWhiteSpace(c)
    decreases |s|
  {
    if s != [] {
      RemoveWhiteSpaceKeeps(s[1..], c);
      assert s == [s[0]] + s[1..];
    }
  }

  // ---------------------------------------------------------------- substrings

  predicate StartsWith(s: string, p: string) {
    |p| <= |s| && s[..|p|] == p
  }

  /** `s.includes(p)` */
  predicate Contains(s: string, p: string)
    decreases |s|
  {
    StartsWith(s, p) || (s != [] && Contains(s[1..], p))
  }

  lemma {:induction false} ContainsPrefix(s: string, t: string, p: string)
    requires Contains(s, p)
    ensures Contains(s + t, p)
  {
    if StartsWith(s, p) {
      assert (s + t)[..|p|] == s[..|p|];
    } else {
      ContainsPrefix(s[1..], t, p);
      assert (s + t)[1..] == s[1..] + t;
    }
  }

  /** No string contains a pattern whose first character it lacks. */
  lemma {:induction false} LacksFirstChar(s: string, p: string)
    requires p != []
    requires forall i :: 0 <= i < |s| ==> s[i] != p[0]
    ensures !Contains(s, p)
  {
    if s != [] {
      assert !StartsWith(s, p) by {
        if |p| <= |s| { assert s[..|p|][0] == s[0]; }
      }
      LacksFirstChar(s[1..], p);
    }
  }

  /** `s.replace(/p/g, v)` for a pattern `p` with no regular-expression
      metacharacters and a replacement `v` with no `$` patterns: the
      occurrences are found left to right, never overlapping, and the inserted
      text is not scanned again. */
  function ReplaceAll(s: string, p: string, v: string): (r: string)
    requires p != []
    decreases |s|
  {
    if |s| < |p| then s
    else if s[..|p|] == p then v + ReplaceAll(s[|p|..], p, v)
    else [s[0]] + ReplaceAll(s[1..], p, v)
  }

  /** A string in which the pattern does not occur is returned unchanged. */
  lemma {:induction false} ReplaceAllAbsent(s: string, p: string, v: string)
    requires p != []
    requires !Contains(s, p)
    ensures ReplaceAll(s, p, v) == s
    decreases |s|
  {
    if |s| >= |p| {
      assert !StartsWith(s, p);
      ReplaceAllAbsent(s[1..], p, v);
    }
  }

  /** Text in which no occurrence of the pattern starts is copied as it is,
      and the scan goes on with what follows it. */
  lemma {:induction false} ReplaceAllSkip(a: string, b: string, p: string, v: string)
    requires p != []
    requires forall i :: 0 <= i < |a| ==> !StartsWith((a + b)[i..], p)
    ensures ReplaceAll(a + b, p, v) == a + ReplaceAll(b, p, v)
    decreases |a|
  {
    var s := a + b;
    if a == [] {
      assert s == b;
    } else {
      assert s[0..] == s;
      assert !StartsWith(s, p);
      if |s| < |p| {
        assert ReplaceAll(b, p, v) == b;
      } else {
        assert s[1..] == a[1..] + b;
        forall i | 0 <= i < |a[1..]| ensures !StartsWith((a[1..] + b)[i..], p) {
          assert (a[1..] + b)[i..] == s[i + 1..];
        }
        ReplaceAllSkip(a[1..], b, p, v);
        assert a == [s[0]] + a[1..];
      }
    }
  }

  /** The leftmost occurrence is replaced and the scan then goes on after it:
      this is what makes the pattern global. */
  lemma {:induction false} ReplaceAllFirst(a: string, p: string, b: string, v: string)
    requires p != []
    requires !Contains(a + p[..|p| - 1], p)
    ensures ReplaceAll(a + p + b, p, v) == a + v + ReplaceAll(b, p, v)
    decreases |a|
  {
    var s := a + p + b;
    if a == [] {
      assert s == p + b;
      assert s[..|p|] == p && s[|p|..] == b;
    } else {
      var t := a + p[..|p| - 1];
      assert |s| >= |p|;
      assert s[..|p|] != p by {
        assert |t| >= |p|;
        assert t[..|p|] == s[..|p|];
        assert !StartsWith(t, p);
      }
      var t' := a[1..] + p[..|p| - 1];
      assert !Contains(t', p) by {
        assert t[1..] == t';
        assert !Contains(t[1..], p);
      }
      ReplaceAllFirst(a[1..], p, b, v);
      assert s[1..] == a[1..] + p + b;
      assert ReplaceAll(s, p, v) == [s[0]] + ReplaceAll(s[1..], p, v);
      assert a == [s[0]] + a[1..];
    }
  }

  /** Every occurrence is replaced: two adjacent placeholders both become `v`. */
  lemma ReplaceAllBoth(p: string, v: string)
    requires p != []
    ensures ReplaceAll(p + p, p, v) == v + v
  {
    var e: string := [];
    assert e + p[..|p| - 1] == p[..|p| - 1];
    assert !Contains(e + p[..|p| - 1], p) by {
      if Contains(p[..|p| - 1], p) { ContainsLength(p[..|p| - 1], p); }
    }
    ReplaceAllFirst(e, p, p, v);
    assert ReplaceAll(p, p, v) == v + ReplaceAll([], p, v) by {
      assert p[..|p|] == p && p[|p|..] == [];
    }
    assert e + p + p == p + p;
  }

  lemma {:induction false} ContainsLength(s: string, p: string)
    requires Contains(s, p)
    ensures |p| <= |s|
  {
    if !StartsWith(s, p) {
      ContainsLength(s[1..], p);
    }
  }

  // ---------------------------------------------------------------- split/join

  /** `s.split(sep)` for a non-empty separator: always at least one segment. */
  function Split(s: string, sep: string): (parts: seq<string>)
    requires sep != []
    ensures |parts| >= 1
    decreases |s|
  {
    if |s| < |sep| then [s]
    else if s[..|sep|] == sep then [""] + Split(s[|sep|..], sep)
    else
      var rest := Split(s[1..], sep);
      [[s[0]] + rest[0]] + rest[1..]
  }

  /** `parts.join(sep)` */
  function Join(parts: seq<string>, sep: string): string
  {
    if parts == [] then ""
    else if |parts| == 1 then parts[0]
    else parts[0] + sep + Join(parts[1..], sep)
  }

  lemma JoinConsHead(c: char, x: string, xs: seq<string>, sep: string)
    ensures Join([[c] + x] + xs, sep) == [c] + Join([x] + xs, sep)
  {
    if xs != [] {
      assert ([[c] + x] + xs)[1..] == xs;
      assert ([x] + xs)[1..] == xs;
    }
  }

  /** Splitting and joining again with the same separator gives the input back. */
  lemma {:induction false} JoinSplit(s: string, sep: string)
    requires sep != []
    ensures Join(Split(s, sep), sep) == s
    decreases |s|
  {
    if |s| < |sep| {
    } else if s[..|sep|] == sep {
      var rest := Split(s[|sep|..], sep);
      JoinSplit(s[|sep|..], sep);
      assert ([""] + rest)[1..] == rest;
      assert s == sep + s[|sep|..];
    } else {
      var rest := Split(s[1..], sep);
      JoinSplit(s[1..], sep);
      JoinConsHead(s[0], rest[0], rest[1..], sep);
      assert [rest[0]] + rest[1..] == rest;
      assert s == [s[0]] + s[1..];
    }
  }

  /** The first segment is a prefix of the input and holds no separator. */
  lemma {:induction false} SplitHead(s: string, sep: string)
    requires sep != []
    ensures StartsWith(s, Split(s, sep)[0])
    ensures !Contains(Split(s, sep)[0], sep)
    decreases |s|
  {
    var head := Split(s, sep)[0];
    if |s| < |sep| {
      if Contains(s, sep) { ContainsLength(s, sep); }
    } else if s[..|sep|] == sep {
      assert head == "";
      if Contains(head, sep) { ContainsLength(head, sep); }
    } else {
      var rest := Split(s[1..], sep);
      SplitHead(s[1..], sep);
      assert head == [s[0]] + rest[0];
      assert s[..|head|] == [s[0]] + s[1..][..|rest[0]|];
    }
  }

  /** The input splits into more than one segment exactly when it holds the
      separator. */
  lemma {:induction false} SplitMany(s: string, sep: string)
    requires sep != []
    ensures |Split(s, sep)| >= 2 <==> Contains(s, sep)
    decreases |s|
  {
    if |s| < |sep| {
      if Contains(s, sep) { ContainsLength(s, sep); }
    } else if s[..|sep|] == sep {
    } else {
      SplitMany(s[1..], sep);
    }
  }

  // ---------------------------------------------------------------- find

  /** `xs.findIndex(p)`, with -1 read as `None`: the first element that
      satisfies `p`. `xs.find(p)` is the element at that index. */
  function FindFirst<T>(xs: seq<T>, p: T -> bool): (r: Option<nat>)
    ensures r.Some? ==> r.value < |xs| && p(xs[r.value])
    ensures r.Some? ==> forall j :: 0 <= j < r.value ==> !p(xs[j])
    ensures r.None? <==> forall j :: 0 <= j < |xs| ==> !p(xs[j])
  {
    if xs == [] then None
    else if p(xs[0]) then Some(0)
    else match FindFirst(xs[1..], p)
      case None => None
      case Some(k) => Some(k + 1)
  }

  // ---------------------------------------------------------------- truthiness

  /** A possibly missing string is truthy when present and not empty. */
  predicate Truthy(o: Option<string>) {
    o.Some? && o.value != ""
  }

  /** `a || b` on possibly missing strings. */
  function Or(a: Option<string>, b: Option<string>): (r: Option<string>)
    ensures Truthy(r) <==> Truthy(a) || Truthy(b)
    ensures Truthy(a) ==> r == a
  {
    if Truthy(a) then a else b
  }

  /** `value || fallback` for a string field: an empty or missing value is
      replaced by the fallback. */
  function OrDefault(value: string, fallback: string): (r: string)
    ensures value != "" ==> r == value
    ensures value == "" ==> r == fallback
  {
    if value != "" then value else fallback
  }
}
