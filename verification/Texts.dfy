// What the source's checks of strings ask: white space, names that are safe as one
// component of a path, and hashes written in hexadecimal.
module Texts {
  // unicode.IsSpace.
  predicate IsSpace(rune: nat) {
    || 0x09 <= rune <= 0x0D || rune in {0x20, 0x85, 0xA0, 0x1680, 0x2028, 0x2029, 0x202F, 0x205F, 0x3000}
    || 0x2000 <= rune <= 0x200A
  }

  // strings.TrimSpace(s) == "".
  predicate Blank(s: string) {
    forall i :: 0 <= i < |s| ==> IsSpace(s[i] as nat)
  }

  function TrimLeft(s: string): string {
    if s != "" && IsSpace(s[0] as nat) then TrimLeft(s[1..]) else s
  }

  function TrimRight(s: string): string {
    if s != "" && IsSpace(s[|s| - 1] as nat) then TrimRight(s[..|s| - 1]) else s
  }

  // strings.TrimSpace.
  function Trim(s: string): string {
    TrimRight(TrimLeft(s))
  }

  lemma {:induction false} TrimLeftIsBlank(s: string)
    ensures Blank(TrimLeft(s)) <==> Blank(s)
    ensures TrimLeft(s) == "" <==> Blank(s)
  {
    if s != "" && IsSpace(s[0] as nat) {
      TrimLeftIsBlank(s[1..]);
      assert forall i :: 1 <= i < |s| ==> s[i] == s[1..][i - 1];
    }
  }

  lemma {:induction false} TrimRightIsBlank(s: string)
    ensures Blank(TrimRight(s)) <==> Blank(s)
    ensures TrimRight(s) == "" <==> Blank(s)
  {
    if s != "" && IsSpace(s[|s| - 1] as nat) { TrimRightIsBlank(s[..|s| - 1]); }
  }

  // Only a blank text is trimmed to nothing.
  lemma TrimIsBlank(s: string)
    ensures Blank(Trim(s)) <==> Blank(s)
    ensures Trim(s) == "" <==> Blank(s)
  {
    TrimLeftIsBlank(s);
    TrimRightIsBlank(TrimLeft(s));
  }

  // A text without the white space around it.
  ghost predicate IsTrimmed(s: string, t: string) {
    && (t != "" ==> !IsSpace(t[0] as nat) && !IsSpace(t[|t| - 1] as nat))
    && exists before, after :: Blank(before) && Blank(after) && s == before + t + after
  }

  lemma {:induction false} TrimLeftCuts(s: string) returns (before: string)
    ensures Blank(before) && s == before + TrimLeft(s)
    ensures TrimLeft(s) != "" ==> !IsSpace(TrimLeft(s)[0] as nat)
  {
    before := "";
    if s != "" && IsSpace(s[0] as nat) {
      var rest := TrimLeftCuts(s[1..]);
      before := [s[0]] + rest;
    }
  }

  lemma {:induction false} TrimRightCuts(s: string) returns (after: string)
    ensures Blank(after) && s == TrimRight(s) + after
    ensures TrimRight(s) != "" ==> !IsSpace(TrimRight(s)[|TrimRight(s)| - 1] as nat)
  {
    after := "";
    if s != "" && IsSpace(s[|s| - 1] as nat) {
      var rest := TrimRightCuts(s[..|s| - 1]);
      after := rest + [s[|s| - 1]];
    }
  }

  lemma TrimIsTrimmed(s: string)
    ensures IsTrimmed(s, Trim(s))
  {
    var before := TrimLeftCuts(s);
    var after := TrimRightCuts(TrimLeft(s));
    assert s == before + Trim(s) + after;
    if Trim(s) != "" { assert Trim(s)[0] == TrimLeft(s)[0]; }
  }

  // There is only one such text.
  lemma OnlyTrimmed(s: string, t: string, u: string)
    requires IsTrimmed(s, t) && IsTrimmed(s, u)
    ensures t == u
  {
    var before, after :| Blank(before) && Blank(after) && s == before + t + after;
    var b, a :| Blank(b) && Blank(a) && s == b + u + a;
    TrimmedIsBlank(s, t);
    TrimmedIsBlank(s, u);
    if t != "" && u != "" {
      StartsNoLater(s, before, t, b, u + a);
      StartsNoLater(s, b, u, before, t + after);
      EndsNoEarlier(s, t, after, b + u, a);
      EndsNoEarlier(s, u, a, before + t, after);
      assert t == s[|before|..|before| + |t|];
    }
  }

  // What is not white space cannot lie in the white space before another text.
  lemma StartsNoLater(s: string, before: string, t: string, b: string, rest: string)
    requires t != "" && before + t <= s && s == b + rest && Blank(b) && !IsSpace(t[0] as nat)
    ensures |before| >= |b|
  {
    assert s[|before|] == t[0];
    assert forall i :: 0 <= i < |b| ==> s[i] == b[i];
  }

  lemma EndsNoEarlier(s: string, t: string, after: string, rest: string, a: string)
    requires t != "" && |t + after| <= |s| && t + after == s[|s| - |t + after|..] && s == rest + a
    requires Blank(a) && !IsSpace(t[|t| - 1] as nat)
    ensures |after| >= |a|
  {
    var i := |s| - |after| - 1;
    assert s[i] == (t + after)[|t| - 1] == t[|t| - 1];
    assert forall k :: |rest| <= k < |s| ==> s[k] == a[k - |rest|];
  }

  lemma TrimmedIsBlank(s: string, t: string)
    requires IsTrimmed(s, t)
    ensures Blank(t) <==> Blank(s)
  {
    var before, after :| Blank(before) && Blank(after) && s == before + t + after;
    if Blank(t) {
    } else {
      var i :| 0 <= i < |t| && !IsSpace(t[i] as nat);
      assert s[|before| + i] == t[i];
    }
  }

  predicate IsAlphanumeric(rune: nat) {
    0x61 <= rune <= 0x7A || 0x41 <= rune <= 0x5A || 0x30 <= rune <= 0x39
  }

  // '-', '.' and '_'.
  predicate IsPunctuation(rune: nat) {
    rune in {0x2D, 0x2E, 0x5F}
  }

  const DOT: nat := 0x2E

  // A letter or digit, then letters, digits, '-', '_' and '.', not ending in '.'.
  predicate SafeRunes(runes: seq<nat>) {
    && runes != [] && runes[|runes| - 1] != DOT && IsAlphanumeric(runes[0])
    && forall k :: 1 <= k < |runes| ==> IsAlphanumeric(runes[k]) || IsPunctuation(runes[k])
  }

  function Runes(s: string): (runes: seq<nat>)
    ensures |runes| == |s| && forall i :: 0 <= i < |s| ==> runes[i] == s[i] as nat
  {
    seq(|s|, i requires 0 <= i < |s| => s[i] as nat)
  }

  predicate SafeName(s: string) {
    SafeRunes(Runes(s))
  }

  // On the characters themselves.
  lemma SafeNameIs(s: string)
    ensures SafeName(s) <==>
      && s != "" && s[|s| - 1] != '.' && s[0] !in {'-', '.', '_'}
      && forall i :: 0 <= i < |s| ==>
        'a' <= s[i] <= 'z' || 'A' <= s[i] <= 'Z' || '0' <= s[i] <= '9' || s[i] in {'-', '.', '_'}
  {
    assert forall i :: 0 <= i < |s| ==> Runes(s)[i] == s[i] as nat;
  }

  // A safe name is one component of a path, and not one with a meaning of its own.
  lemma SafeNameStaysInside(s: string)
    requires SafeName(s)
    ensures '/' !in s && '\\' !in s && s != "." && s != ".."
  {
    SafeNameIs(s);
  }

  lemma SafeIsNotBlank(s: string)
    requires SafeName(s)
    ensures !Blank(s)
  {
    assert s[0] as nat == Runes(s)[0];
  }

  predicate IsHexDigit(c: char) {
    '0' <= c <= '9' || 'a' <= c <= 'f' || 'A' <= c <= 'F'
  }

  predicate AllHex(s: string) {
    forall i :: 0 <= i < |s| ==> IsHexDigit(s[i])
  }

  // validSemanticHash: 64 hexadecimal digits.
  predicate ValidHash(s: string) {
    |s| == 64 && AllHex(s)
  }

  // validGitObjectID: 40 or 64 hexadecimal digits.
  predicate ValidObjectId(s: string) {
    (|s| == 40 || |s| == 64) && AllHex(s)
  }

  lemma ObjectIdIsNotBlank(s: string)
    requires ValidObjectId(s)
    ensures !Blank(s)
  {
    assert IsHexDigit(s[0]) && !IsSpace(s[0] as nat);
  }

  predicate HasPrefix(s: string, prefix: string) {
    prefix <= s
  }
}
