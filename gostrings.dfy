/**
 * Go strings are immutable byte sequences: `len`, slicing and concatenation
 * work on bytes, not characters. The model keeps that: a Go string is a
 * `Bytes`, and the ASCII literals of the source are turned into bytes by `Str`.
 */
module GoStrings {

  newtype byte = b: int | 0 <= b < 256

  type Bytes = seq<byte>

  /** The bytes of a literal. Every literal used in the model is ASCII, so each
      character is one byte and its code is kept unchanged. */
  function Str(s: string): (r: Bytes)
    ensures |r| == |s|
    ensures forall i :: 0 <= i < |s| ==> r[i] as int == s[i] as int % 256
  {
    seq(|s|, i requires 0 <= i < |s| => (s[i] as int % 256) as byte)
  }

  predicate HasPrefix(s: Bytes, prefix: Bytes) {
    |prefix| <= |s| && s[..|prefix|] == prefix
  }

  predicate HasSuffix(s: Bytes, suffix: Bytes) {
    |suffix| <= |s| && s[|s| - |suffix|..] == suffix
  }

  /** strings.TrimPrefix: drops one leading copy of `prefix`, if there is one. */
  function TrimPrefix(s: Bytes, prefix: Bytes): (r: Bytes)
    ensures HasPrefix(s, prefix) ==> s == prefix + r
    ensures !HasPrefix(s, prefix) ==> r == s
  {
    if HasPrefix(s, prefix) then s[|prefix|..] else s
  }

  /** strings.TrimSuffix: drops one trailing copy of `suffix`, if there is one. */
  function TrimSuffix(s: Bytes, suffix: Bytes): (r: Bytes)
    ensures HasSuffix(s, suffix) ==> s == r + suffix
    ensures !HasSuffix(s, suffix) ==> r == s
  {
    if HasSuffix(s, suffix) then s[..|s| - |suffix|] else s
  }

  /** strings.Join: the parts in order, with `sep` between consecutive parts. */
  function Join(parts: seq<Bytes>, sep: Bytes): Bytes
    decreases |parts|
  {
    if |parts| == 0 then []
    else if |parts| == 1 then parts[0]
    else parts[0] + sep + Join(parts[1..], sep)
  }

  /** Where `parts[i]` starts inside `Join(parts, sep)`. */
  function JoinOffset(parts: seq<Bytes>, sep: Bytes, i: nat): nat
    requires i < |parts|
    decreases i
  {
    if i == 0 then 0 else |parts[0]| + |sep| + JoinOffset(parts[1..], sep, i - 1)
  }

  /** Join keeps every part, verbatim and in order: part `i` sits at its offset,
      and the next part starts one separator after it. */
  lemma {:induction false} JoinAt(parts: seq<Bytes>, sep: Bytes, i: nat)
    requires i < |parts|
    ensures JoinOffset(parts, sep, i) + |parts[i]| <= |Join(parts, sep)|
    ensures Join(parts, sep)[JoinOffset(parts, sep, i)..JoinOffset(parts, sep, i) + |parts[i]|] == parts[i]
    ensures i + 1 < |parts| ==>
      JoinOffset(parts, sep, i + 1) == JoinOffset(parts, sep, i) + |parts[i]| + |sep|
    decreases i
  {
    if |parts| == 1 {
    } else if i == 0 {
      assert Join(parts, sep) == parts[0] + (sep + Join(parts[1..], sep));
    } else {
      JoinAt(parts[1..], sep, i - 1);
      var rest := Join(parts[1..], sep);
      var k := JoinOffset(parts[1..], sep, i - 1);
      var pre := parts[0] + sep;
      assert Join(parts, sep) == pre + rest;
      assert JoinOffset(parts, sep, i) == |pre| + k;
      assert (pre + rest)[|pre| + k..|pre| + k + |parts[i]|] == rest[k..k + |parts[i]|];
    }
  }

  /** In `a + b + c`, `b` sits right after `a`, and the whole starts with `a`
      and ends with `c`. */
  lemma ConcatParts(a: Bytes, b: Bytes, c: Bytes)
    ensures |a + b + c| == |a| + |b| + |c|
    ensures (a + b + c)[|a|..|a| + |b|] == b
    ensures HasPrefix(a + b + c, a) && HasSuffix(a + b + c, c)
  {
    var s := a + b + c;
    assert forall i :: 0 <= i < |b| ==> s[|a| + i] == b[i];
    assert forall i :: 0 <= i < |c| ==> s[|a| + |b| + i] == c[i];
  }

  /** Concatenating literals is concatenating their bytes. */
  lemma StrConcat(a: string, b: string)
    ensures Str(a + b) == Str(a) + Str(b)
  {
    assert forall i :: 0 <= i < |a + b| ==> Str(a + b)[i] == (Str(a) + Str(b))[i];
  }
}
