/** The string primitives of JavaScript that the source relies on: the `\s` class,
    `trim`, `toLowerCase`, `startsWith`, `endsWith`, `includes`, `split`, `join`
    and the decimal rendering of integers in template literals. */
module Text {

  /** JavaScript's `\s`: the WhiteSpace and LineTerminator characters. */
  const Spaces: set<char> := {
    '\t', '\n', '\U{000B}', '\U{000C}', '\r', ' ', '\U{00A0}', '\U{1680}',
    '\U{2000}', '\U{2001}', '\U{2002}', '\U{2003}', '\U{2004}', '\U{2005}',
    '\U{2006}', '\U{2007}', '\U{2008}', '\U{2009}', '\U{200A}',
    '\U{2028}', '\U{2029}', '\U{202F}', '\U{205F}', '\U{3000}', '\U{FEFF}'
  }

  predicate IsSpace(c: char)
  {
    c in Spaces
  }

  /** The characters a regular-expression `.` does not match. */
  predicate IsLineTerminator(c: char)
  {
    c == '\n' || c == '\r' || c == '\U{2028}' || c == '\U{2029}'
  }

  predicate NoSpace(s: string)
  {
    forall i :: 0 <= i < |s| ==> !IsSpace(s[i])
  }

  predicate IsTrimmed(s: string)
  {
    s == [] || (!IsSpace(s[0]) && !IsSpace(s[|s| - 1]))
  }

  /** `String.prototype.trimStart`: drops the leading run of `\s` characters. */
  function TrimStart(s: string): (r: string)
    ensures |r| <= |s| && r == s[|s| - |r|..]
    ensures r == [] || !IsSpace(r[0])
    ensures forall i :: 0 <= i < |s| - |r| ==> IsSpace(s[i])
  {
    if s == [] || !IsSpace(s[0]) then s
    else
      var r := TrimStart(s[1..]);
      TrimStartStep(s, s[1..], r);
      r
  }

  /** Dropping one more leading space keeps the trimmed suffix and its all-space prefix. */
  lemma {:induction false} TrimStartStep(s: string, tail: string, r: string)
    requires s != [] && IsSpace(s[0]) && tail == s[1..]
    requires |r| <= |tail| && r == tail[|tail| - |r|..]
    requires forall i :: 0 <= i < |tail| - |r| ==> IsSpace(tail[i])
    ensures r == s[|s| - |r|..]
    ensures forall i :: 0 <= i < |s| - |r| ==> IsSpace(s[i])
  {
    assert tail[|tail| - |r|..] == s[|s| - |r|..];
    forall i | 0 <= i < |s| - |r|
      ensures IsSpace(s[i])
    {
      if i > 0 {
        assert s[i] == tail[i - 1];
      }
    }
  }

  /** `String.prototype.trimEnd`: drops the trailing run of `\s` characters. */
  function TrimEnd(s: string): (r: string)
    ensures |r| <= |s| && r == s[..|r|]
    ensures r == [] || !IsSpace(r[|r| - 1])
    ensures forall i :: |r| <= i < |s| ==> IsSpace(s[i])
  {
    if s == [] || !IsSpace(s[|s| - 1]) then s
    else
      var r := TrimEnd(s[..|s| - 1]);
      TrimEndStep(s, s[..|s| - 1], r);
      r
  }

  /** Dropping one more trailing space keeps the trimmed prefix and its all-space suffix. */
  lemma {:induction false} TrimEndStep(s: string, init: string, r: string)
    requires s != [] && IsSpace(s[|s| - 1]) && init == s[..|s| - 1]
    requires |r| <= |init| && r == init[..|r|]
    requires forall i :: |r| <= i < |init| ==> IsSpace(init[i])
    ensures r == s[..|r|]
    ensures forall i :: |r| <= i < |s| ==> IsSpace(s[i])
  {
    forall i | |r| <= i < |s|
      ensures IsSpace(s[i])
    {
      if i < |init| {
        assert s[i] == init[i];
      }
    }
  }

  /** How many leading `\s` characters `trim` drops. */
  function Lead(s: string): (n: nat)
    ensures n <= |s|
  {
    |s| - |TrimStart(s)|
  }

  /** `String.prototype.trim`. */
  function Trim(s: string): (r: string)
    ensures IsTrimmed(r)
    ensures IsTrimmed(s) ==> r == s
    ensures r == [] <==> forall i :: 0 <= i < |s| ==> IsSpace(s[i])
  {
    TrimIsTrimmed(s);
    TrimOfTrimmed(s);
    TrimEmpty(s);
    TrimEnd(TrimStart(s))
  }

  /** `trim` keeps the slice of `s` between a leading and a trailing run of `\s` characters;
      with `IsTrimmed(Trim(s))`, neither run can be extended. */
  lemma {:induction false} TrimSlice(s: string)
    ensures Lead(s) + |Trim(s)| <= |s| && Trim(s) == s[Lead(s)..Lead(s) + |Trim(s)|]
    ensures forall i :: 0 <= i < Lead(s) ==> IsSpace(s[i])
    ensures forall i :: Lead(s) + |Trim(s)| <= i < |s| ==> IsSpace(s[i])
  {
    var t := TrimStart(s);
    assert Trim(s) == TrimEnd(t);
    SliceOfSuffix(s, Lead(s), t, TrimEnd(t));
  }

  /** A trimmed-at-the-end suffix of `s` is a slice of `s` with only spaces after it. */
  lemma {:induction false} SliceOfSuffix(s: string, k: nat, t: string, r: string)
    requires k <= |s| && t == s[k..]
    requires |r| <= |t| && r == t[..|r|]
    requires forall i :: |r| <= i < |t| ==> IsSpace(t[i])
    ensures k + |r| <= |s| && r == s[k..k + |r|]
    ensures forall i :: k + |r| <= i < |s| ==> IsSpace(s[i])
  {
    forall i | k + |r| <= i < |s|
      ensures IsSpace(s[i])
    {
      assert s[i] == t[i - k];
    }
  }

  lemma {:induction false} TrimIsTrimmed(s: string)
    ensures IsTrimmed(TrimEnd(TrimStart(s)))
  {
    var t := TrimStart(s);
    var r := TrimEnd(t);
    if r != [] {
      assert r[0] == t[0];
    }
  }

  lemma {:induction false} TrimOfTrimmed(s: string)
    ensures IsTrimmed(s) ==> TrimEnd(TrimStart(s)) == s
  {
    if IsTrimmed(s) && s != [] {
      assert TrimStart(s) == s;
      assert TrimEnd(s) == s;
    }
  }

  lemma {:induction false} TrimEmpty(s: string)
    ensures TrimEnd(TrimStart(s)) == [] <==> forall i :: 0 <= i < |s| ==> IsSpace(s[i])
  {
    var t := TrimStart(s);
    var r := TrimEnd(t);
    TrimEndKeepsHead(t);
    if r == [] {
      assert t == [];
    } else {
      var k := |s| - |t|;
      assert s[k] == t[0] && !IsSpace(t[0]);
    }
  }

  lemma {:induction false} TrimEndKeepsHead(t: string)
    ensures t != [] && !IsSpace(t[0]) ==> TrimEnd(t) != []
  {
  }

  /** Trimming only removes characters. */
  lemma {:induction false} TrimChars(s: string)
    ensures forall i :: 0 <= i < |Trim(s)| ==> Trim(s)[i] in s
  {
    var t := TrimStart(s);
    var r := TrimEnd(t);
    assert Trim(s) == r;
    var k := |s| - |t|;
    forall i | 0 <= i < |r| ensures r[i] in s {
      assert r[i] == t[i];
      assert t[i] == s[k + i];
    }
  }

  /** Upper-case ASCII letters become lower-case; everything else is kept. */
  function LowerChar(c: char): char
  {
    if 'A' <= c <= 'Z' then (c as int + 32) as char else c
  }

  /** `String.prototype.toLowerCase`, on the ASCII letters. */
  function ToLower(s: string): (r: string)
    ensures |r| == |s|
    ensures forall i :: 0 <= i < |r| ==> !('A' <= r[i] <= 'Z')
    ensures forall i :: 0 <= i < |r| ==> (r[i] == s[i] || 'A' <= s[i] <= 'Z')
  {
    seq(|s|, i requires 0 <= i < |s| => LowerChar(s[i]))
  }

  /** Lower-casing twice is lower-casing once. */
  lemma {:induction false} ToLowerIdempotent(s: string)
    ensures ToLower(ToLower(s)) == ToLower(s)
  {
    var r := ToLower(s);
    assert forall i :: 0 <= i < |r| ==> ToLower(r)[i] == LowerChar(r[i]) == r[i];
  }

  predicate StartsWith(s: string, prefix: string)
  {
    |prefix| <= |s| && s[..|prefix|] == prefix
  }

  predicate EndsWith(s: string, suffix: string)
  {
    |suffix| <= |s| && s[|s| - |suffix|..] == suffix
  }

  predicate OccursAt(s: string, sub: string, i: int)
  {
    0 <= i && i + |sub| <= |s| && s[i..i + |sub|] == sub
  }

  /** `String.prototype.includes`. */
  predicate Contains(s: string, sub: string)
  {
    StartsWith(s, sub) || (s != [] && Contains(s[1..], sub))
  }

  /** `includes` holds exactly when `sub` occurs at some position. */
  lemma {:induction false} ContainsIff(s: string, sub: string)
    ensures Contains(s, sub) <==> exists i :: OccursAt(s, sub, i)
  {
    if Contains(s, sub) {
      var i := ContainsWitness(s, sub);
    }
    if exists i :: OccursAt(s, sub, i) {
      var i :| OccursAt(s, sub, i);
      OccursContains(s, sub, i);
    }
  }

  /** Where `includes` finds `sub`. */
  lemma {:induction false} ContainsWitness(s: string, sub: string) returns (i: nat)
    requires Contains(s, sub)
    ensures OccursAt(s, sub, i)
  {
    if StartsWith(s, sub) {
      assert s[0..0 + |sub|] == s[..|sub|];
      i := 0;
    } else {
      var k := ContainsWitness(s[1..], sub);
      assert s[1..][k..k + |sub|] == s[k + 1..k + 1 + |sub|];
      i := k + 1;
    }
  }

  /** An occurrence anywhere makes `includes` hold. */
  lemma {:induction false} OccursContains(s: string, sub: string, i: int)
    requires OccursAt(s, sub, i)
    ensures Contains(s, sub)
    decreases i
  {
    if i == 0 {
      assert s[..|sub|] == s[0..0 + |sub|];
    } else {
      assert s[1..][i - 1..i - 1 + |sub|] == s[i..i + |sub|];
      OccursContains(s[1..], sub, i - 1);
    }
  }

  /** `Array.prototype.join(sep)`. */
  function Join(parts: seq<string>, sep: string): string
  {
    if parts == [] then ""
    else if |parts| == 1 then parts[0]
    else parts[0] + sep + Join(parts[1..], sep)
  }

  /** Trimming a trimmed, non-empty word that has leading spaces added gives the word back. */
  lemma {:induction false} TrimPadded(pad: string, t: string)
    requires forall i :: 0 <= i < |pad| ==> IsSpace(pad[i])
    requires t != [] && IsTrimmed(t)
    ensures Trim(pad + t) == t
  {
    TrimStartPadded(pad, t);
    TrimOfTrimmed(t);
  }

  lemma {:induction false} TrimStartPadded(pad: string, t: string)
    requires forall i :: 0 <= i < |pad| ==> IsSpace(pad[i])
    requires t != [] && !IsSpace(t[0])
    ensures TrimStart(pad + t) == t
  {
    if pad != [] {
      assert (pad + t)[1..] == pad[1..] + t;
      TrimStartPadded(pad[1..], t);
    } else {
      assert pad + t == t;
    }
  }

  /** `s.split(sep)` for a non-empty separator string: the pieces between the
      non-overlapping occurrences of `sep`, found from left to right. */
  function Split(s: string, sep: string): (r: seq<string>)
    requires |sep| > 0
    ensures |r| >= 1
    decreases |s|
  {
    if |s| < |sep| then [s]
    else if s[..|sep|] == sep then [""] + Split(s[|sep|..], sep)
    else
      var r := Split(s[1..], sep);
      [[s[0]] + r[0]] + r[1..]
  }

  lemma {:induction false} JoinCons(a: string, rest: seq<string>, sep: string)
    ensures Join([a] + rest, sep) == a + (if rest == [] then "" else sep + Join(rest, sep))
  {
    assert ([a] + rest)[1..] == rest;
  }

  /** Splitting loses nothing: joining the pieces back gives the original string. */
  lemma {:induction false} JoinSplit(s: string, sep: string)
    requires |sep| > 0
    ensures Join(Split(s, sep), sep) == s
    decreases |s|
  {
    if |s| < |sep| {
    } else if s[..|sep|] == sep {
      JoinSplit(s[|sep|..], sep);
      JoinSplitAtSep(s, sep);
    } else {
      JoinSplit(s[1..], sep);
      JoinSplitGlued(s, sep);
    }
  }

  /** The step of `JoinSplit` where the string starts with the separator. */
  lemma {:induction false} JoinSplitAtSep(s: string, sep: string)
    requires |sep| > 0 && |s| >= |sep| && s[..|sep|] == sep
    requires Join(Split(s[|sep|..], sep), sep) == s[|sep|..]
    ensures Join(Split(s, sep), sep) == s
  {
    var tail := s[|sep|..];
    JoinCons("", Split(tail, sep), sep);
    assert s == sep + tail;
  }

  /** The step of `JoinSplit` where the first character is glued to the first piece. */
  lemma {:induction false} JoinSplitGlued(s: string, sep: string)
    requires |sep| > 0 && |s| >= |sep| && s[..|sep|] != sep
    requires Join(Split(s[1..], sep), sep) == s[1..]
    ensures Join(Split(s, sep), sep) == s
  {
    var tail := s[1..];
    var r := Split(tail, sep);
    var rest := if r[1..] == [] then "" else sep + Join(r[1..], sep);
    assert Split(s, sep) == [[s[0]] + r[0]] + r[1..];
    JoinCons([s[0]] + r[0], r[1..], sep);
    assert r == [r[0]] + r[1..];
    JoinCons(r[0], r[1..], sep);
    assert tail == r[0] + rest;
    assert ([s[0]] + r[0]) + rest == [s[0]] + tail;
    assert s == [s[0]] + tail;
  }

  /** The first piece of a split is a prefix of the string. */
  lemma {:induction false} SplitHeadPrefix(s: string, sep: string)
    requires |sep| > 0
    ensures Split(s, sep)[0] <= s
    decreases |s|
  {
    if |s| >= |sep| && s[..|sep|] != sep {
      SplitHeadPrefix(s[1..], sep);
      assert s == [s[0]] + s[1..];
    }
  }

  /** The split cuts at the leftmost occurrence: the first piece runs up to the first place
      where `sep` occurs, or is the whole string when it occurs nowhere. */
  lemma {:induction false} SplitLeftmost(s: string, sep: string)
    requires |sep| > 0
    ensures forall i :: 0 <= i < |Split(s, sep)[0]| ==> !OccursAt(s, sep, i)
    ensures |Split(s, sep)| > 1 ==> OccursAt(s, sep, |Split(s, sep)[0]|)
    ensures |Split(s, sep)| == 1 ==> Split(s, sep)[0] == s
    decreases |s|
  {
    if |s| >= |sep| && s[..|sep|] == sep {
      assert s[0..0 + |sep|] == s[..|sep|];
    } else if |s| >= |sep| {
      var tail := s[1..];
      var r := Split(tail, sep);
      SplitLeftmost(tail, sep);
      assert Split(s, sep) == [[s[0]] + r[0]] + r[1..];
      forall i | 0 <= i < 1 + |r[0]|
        ensures !OccursAt(s, sep, i)
      {
        if i == 0 {
          assert s[0..0 + |sep|] == s[..|sep|];
        } else {
          ShiftOccurs(s, tail, sep, i);
        }
      }
      if |r| > 1 {
        ShiftOccurs(s, tail, sep, |r[0]| + 1);
      } else {
        assert s == [s[0]] + tail;
      }
    }
  }

  /** An occurrence after the first character is an occurrence in the tail. */
  lemma {:induction false} ShiftOccurs(s: string, tail: string, sub: string, i: int)
    requires s != [] && tail == s[1..] && i >= 1
    ensures OccursAt(s, sub, i) <==> OccursAt(tail, sub, i - 1)
  {
    if i + |sub| <= |s| {
      assert tail[i - 1..i - 1 + |sub|] == s[i..i + |sub|];
    }
  }

  /** A string shorter than `sub` does not include it. */
  lemma {:induction false} ShortLacks(s: string, sub: string)
    requires |s| < |sub|
    ensures !Contains(s, sub)
  {
    if Contains(s, sub) {
      var i := ContainsWitness(s, sub);
    }
  }

  /** No piece of a split contains the separator. */
  lemma {:induction false} SplitPiecesFree(s: string, sep: string)
    requires |sep| > 0
    ensures forall i :: 0 <= i < |Split(s, sep)| ==> !Contains(Split(s, sep)[i], sep)
    decreases |s|
  {
    if |s| < |sep| {
      ShortLacks(s, sep);
    } else if s[..|sep|] == sep {
      SplitPiecesFree(s[|sep|..], sep);
      ShortLacks("", sep);
    } else {
      var r := Split(s[1..], sep);
      SplitPiecesFree(s[1..], sep);
      SplitHeadPrefix(s[1..], sep);
      GluedLacks(s, r[0], sep);
      assert Split(s, sep) == [[s[0]] + r[0]] + r[1..];
    }
  }

  /** The step of `SplitPiecesFree` where the first character is glued to the first piece. */
  lemma {:induction false} GluedLacks(s: string, head: string, sep: string)
    requires |sep| > 0 && |s| >= |sep| && s[..|sep|] != sep
    requires head <= s[1..] && !Contains(head, sep)
    ensures !Contains([s[0]] + head, sep)
  {
    var x := [s[0]] + head;
    assert x[1..] == head;
    assert x <= s;
    if |sep| <= |x| {
      assert s[..|sep|] == x[..|sep|];
    }
  }

  /** No piece of a split on a one-character separator contains that character. */
  lemma {:induction false} SplitPiecesExclude(s: string, c: char)
    ensures forall i :: 0 <= i < |Split(s, [c])| ==> c !in Split(s, [c])[i]
    decreases |s|
  {
    if |s| >= 1 {
      SplitPiecesExclude(s[1..], c);
      if s[..1] != [c] {
        var r := Split(s[1..], [c]);
        assert s[0] != c;
        assert Split(s, [c]) == [[s[0]] + r[0]] + r[1..];
      }
    }
  }

  /** A prefix free of the (one-character) separator is glued to the first piece. */
  lemma {:induction false} SplitPrefix(w: string, x: string, c: char)
    requires c !in w
    ensures Split(w + x, [c]) == [w + Split(x, [c])[0]] + Split(x, [c])[1..]
  {
    if w != [] {
      SplitPrefix(w[1..], x, c);
      SplitPrefixStep(w[0], w[1..], x, c);
      assert w == [w[0]] + w[1..];
    } else {
      var r := Split(x, [c]);
      assert w + x == x;
      assert w + r[0] == r[0];
      assert r == [r[0]] + r[1..];
    }
  }

  /** The step of `SplitPrefix`: one more character other than `c` in front. */
  lemma {:induction false} SplitPrefixStep(d: char, w: string, x: string, c: char)
    requires d != c
    requires Split(w + x, [c]) == [w + Split(x, [c])[0]] + Split(x, [c])[1..]
    ensures Split([d] + w + x, [c]) == [[d] + w + Split(x, [c])[0]] + Split(x, [c])[1..]
  {
    var r := Split(x, [c]);
    var s := [d] + w + x;
    assert s == [d] + (w + x);
    assert s[1..] == w + x;
    assert s[..1] != [c] by { assert s[..1][0] == d; }
    var q := Split(w + x, [c]);
    assert Split(s, [c]) == [[d] + q[0]] + q[1..];
    assert q[0] == w + r[0] && q[1..] == r[1..];
    assert [d] + (w + r[0]) == [d] + w + r[0];
  }

  /** The pieces of a list joined with `[c] + pad` and split at `c`: the first part, then
      each later part with `pad` in front of it. */
  function PaddedParts(parts: seq<string>, pad: string): (r: seq<string>)
    requires |parts| > 0
    ensures |r| == |parts| && r[0] == parts[0]
    ensures forall i :: 1 <= i < |parts| ==> r[i] == pad + parts[i]
  {
    [parts[0]] + seq(|parts| - 1, i requires 0 <= i < |parts| - 1 => pad + parts[i + 1])
  }

  /** Joining with a separator `[c] + pad`, then splitting at `c`, gives the parts back,
      each part after the first with `pad` in front of it. */
  lemma {:induction false} SplitJoinPadded(parts: seq<string>, c: char, pad: string)
    requires |parts| > 0
    requires forall i :: 0 <= i < |parts| ==> c !in parts[i]
    requires c !in pad
    ensures Split(Join(parts, [c] + pad), [c]) == PaddedParts(parts, pad)
  {
    if |parts| == 1 {
      SplitPrefix(parts[0], "", c);
      assert parts[0] + "" == parts[0];
    } else {
      SplitJoinPadded(parts[1..], c, pad);
      SplitJoinPaddedStep(parts, c, pad);
    }
  }

  /** The step of `SplitJoinPadded`: the first part, the separator, then the rest. */
  lemma {:induction false} SplitJoinPaddedStep(parts: seq<string>, c: char, pad: string)
    requires |parts| > 1 && c !in parts[0] && c !in pad
    requires Split(Join(parts[1..], [c] + pad), [c]) == PaddedParts(parts[1..], pad)
    ensures Split(Join(parts, [c] + pad), [c]) == PaddedParts(parts, pad)
  {
    var sep := [c] + pad;
    var rest := Join(parts[1..], sep);
    var y := [c] + (pad + rest);
    assert Join(parts, sep) == parts[0] + y;
    SplitPrefix(parts[0], y, c);
    assert y[..1] == [c] && y[1..] == pad + rest;
    assert Split(y, [c]) == [""] + Split(pad + rest, [c]);
    SplitPrefix(pad, rest, c);
    var q := PaddedParts(parts[1..], pad);
    assert Split(pad + rest, [c]) == [pad + q[0]] + q[1..];
    var r := [parts[0] + ""] + ([pad + q[0]] + q[1..]);
    assert parts[0] + "" == parts[0];
    assert |r| == |parts|;
    forall i | 0 <= i < |parts| ensures r[i] == PaddedParts(parts, pad)[i] {
      if i >= 2 {
        assert r[i] == q[i - 1];
      }
    }
  }

  /** `s.split(/\s+/)`: the pieces between maximal runs of `\s` characters. */
  function SplitWs(s: string): (r: seq<string>)
    ensures |r| >= 1
    decreases |s|
  {
    if s == [] then [""]
    else if IsSpace(s[0]) then [""] + SplitWs(TrimStart(s))
    else
      var r := SplitWs(s[1..]);
      [[s[0]] + r[0]] + r[1..]
  }

  /** No piece of a whitespace split contains whitespace. */
  lemma {:induction false} SplitWsNoSpace(s: string)
    ensures forall i :: 0 <= i < |SplitWs(s)| ==> NoSpace(SplitWs(s)[i])
    decreases |s|
  {
    if s != [] {
      if IsSpace(s[0]) {
        SplitWsNoSpace(TrimStart(s));
      } else {
        var r := SplitWs(s[1..]);
        SplitWsNoSpace(s[1..]);
        assert NoSpace([s[0]] + r[0]);
        assert SplitWs(s) == [[s[0]] + r[0]] + r[1..];
      }
    }
  }

  lemma {:induction false} SplitWsCons(c: char, t: string)
    requires !IsSpace(c)
    ensures SplitWs([c] + t) == [[c] + SplitWs(t)[0]] + SplitWs(t)[1..]
  {
    assert ([c] + t)[1..] == t;
  }

  /** A space-free prefix is glued to the first piece. */
  lemma {:induction false} SplitWsPrefix(w: string, x: string)
    requires NoSpace(w)
    ensures SplitWs(w + x) == [w + SplitWs(x)[0]] + SplitWs(x)[1..]
  {
    if w != [] {
      assert NoSpace(w[1..]) by {
        forall i | 0 <= i < |w[1..]| ensures !IsSpace(w[1..][i]) {
          assert w[1..][i] == w[i + 1];
        }
      }
      SplitWsPrefix(w[1..], x);
      SplitWsPrefixStep(w[0], w[1..], x);
      assert w == [w[0]] + w[1..];
    } else {
      var r := SplitWs(x);
      assert w + x == x;
      assert w + r[0] == r[0];
      assert r == [r[0]] + r[1..];
    }
  }

  /** The step of `SplitWsPrefix`: one more non-space character in front. */
  lemma {:induction false} SplitWsPrefixStep(c: char, w: string, x: string)
    requires !IsSpace(c)
    requires SplitWs(w + x) == [w + SplitWs(x)[0]] + SplitWs(x)[1..]
    ensures SplitWs([c] + w + x) == [[c] + w + SplitWs(x)[0]] + SplitWs(x)[1..]
  {
    var r := SplitWs(x);
    assert [c] + w + x == [c] + (w + x);
    SplitWsCons(c, w + x);
    assert [c] + (w + r[0]) == [c] + w + r[0];
  }

  /** Joining space-free, non-empty words with single spaces and splitting at
      whitespace runs gives the words back. */
  lemma {:induction false} SplitWsJoin(words: seq<string>)
    requires |words| > 0
    requires forall i :: 0 <= i < |words| ==> words[i] != [] && NoSpace(words[i])
    ensures SplitWs(Join(words, " ")) == words
  {
    if |words| == 1 {
      SplitWsPrefix(words[0], "");
      assert words[0] + "" == words[0];
    } else {
      var rest := Join(words[1..], " ");
      SplitWsJoin(words[1..]);
      JoinStartsWithFirst(words[1..], " ");
      assert rest != [] && !IsSpace(rest[0]);
      assert Join(words, " ") == words[0] + (" " + rest);
      SplitWsPrefix(words[0], " " + rest);
      assert (" " + rest)[0] == ' ';
      assert TrimStart(" " + rest) == TrimStart(rest) by { assert (" " + rest)[1..] == rest; }
      assert SplitWs(" " + rest) == [""] + words[1..];
      assert words[0] + "" == words[0];
    }
  }

  lemma {:induction false} JoinStartsWithFirst(parts: seq<string>, sep: string)
    requires |parts| > 0
    ensures StartsWith(Join(parts, sep), parts[0])
  {
  }

  function DigitChar(d: nat): char
    requires d < 10
  {
    "0123456789"[d]
  }

  /** `String(n)` for a non-negative integer. */
  function NatToDecimal(n: nat): (r: string)
    ensures |r| > 0
  {
    if n < 10 then [DigitChar(n)] else NatToDecimal(n / 10) + [DigitChar(n % 10)]
  }

  /** `String(n)` for an integer. */
  function IntToDecimal(n: int): (r: string)
    ensures |r| > 0
  {
    if n < 0 then "-" + NatToDecimal(-n) else NatToDecimal(n)
  }
}
