// The two checks of a task identifier: by runes in workflow/compiler.go (and in
// workflow/incremental.go), by bytes in workflow/executor.go. Identifiers are Go
// strings: arbitrary bytes, not necessarily UTF-8.
module IdChecks {
  import opened Texts

  newtype Byte = x: int | 0 <= x < 256

  type Text = seq<Byte>

  const RUNE_ERROR: nat := 0xFFFD

  // ------------------------------------------------------------------- runes of a text

  predicate Continues(b: Byte) {
    0x80 <= b < 0xC0
  }

  // The second byte a lead byte allows (section 4 of RFC 3629).
  predicate SecondOk(lead: Byte, b: Byte) {
    if lead == 0xE0 then 0xA0 <= b < 0xC0
    else if lead == 0xED then 0x80 <= b < 0xA0
    else if lead == 0xF0 then 0x90 <= b < 0xC0
    else if lead == 0xF4 then 0x80 <= b < 0x90
    else Continues(b)
  }

  function Width(lead: Byte): nat {
    if 0xC2 <= lead < 0xE0 then 2 else if 0xE0 <= lead < 0xF0 then 3 else if 0xF0 <= lead < 0xF5 then 4 else 1
  }

  predicate WellEncoded(s: Text) {
    && s != [] && Width(s[0]) > 1 && |s| >= Width(s[0])
    && SecondOk(s[0], s[1]) && forall k :: 2 <= k < Width(s[0]) ==> Continues(s[k])
  }

  // utf8.DecodeRune: the rune and the bytes it takes. A malformed byte is one error rune.
  function DecodeRune(s: Text): (r: (nat, nat))
    requires s != []
    ensures 1 <= r.1 <= |s|
    ensures s[0] < 0x80 ==> r == (s[0] as nat, 1)
    ensures s[0] >= 0x80 ==> r.0 >= 0x80
  {
    var b := s[0] as nat;
    if b < 0x80 then (b, 1)
    else if !WellEncoded(s) then (RUNE_ERROR, 1)
    else if Width(s[0]) == 2 then ((b - 0xC0) * 0x40 + (s[1] as nat - 0x80), 2)
    else if Width(s[0]) == 3 then ((b - 0xE0) * 0x1000 + (s[1] as nat - 0x80) * 0x40 + (s[2] as nat - 0x80), 3)
    else ((b - 0xF0) * 0x40000 + (s[1] as nat - 0x80) * 0x1000 + (s[2] as nat - 0x80) * 0x40 + (s[3] as nat - 0x80), 4)
  }

  // Where utf8.DecodeLastRune starts: the last byte of the final four that may start a rune.
  function LastStart(s: Text, back: nat): (start: nat)
    requires 1 <= back <= |s|
    ensures start < |s| && (back == 1 && s[|s| - 1] < 0x80 ==> start == |s| - 1)
    decreases |s| - back
  {
    if !Continues(s[|s| - back]) || back == 4 || back == |s| then |s| - back else LastStart(s, back + 1)
  }

  function DecodeLastRune(s: Text): (r: (nat, nat))
    requires s != []
    ensures 1 <= r.1 <= |s|
    ensures s[|s| - 1] < 0x80 ==> r == (s[|s| - 1] as nat, 1)
  {
    var start := LastStart(s, 1);
    var (rune, size) := DecodeRune(s[start..]);
    if start + size == |s| then (rune, size) else (RUNE_ERROR, 1)
  }

  function TrimLeft(s: Text): Text {
    if s == [] then s
    else
      var (rune, size) := DecodeRune(s);
      if IsSpace(rune) then TrimLeft(s[size..]) else s
  }

  function TrimRight(s: Text): Text {
    if s == [] then s
    else
      var (rune, size) := DecodeLastRune(s);
      if IsSpace(rune) then TrimRight(s[..|s| - size]) else s
  }

  function TrimSpace(s: Text): Text {
    TrimRight(TrimLeft(s))
  }

  // ------------------------------------------------------------------------ the checks

  function Codes(id: Text): (codes: seq<nat>)
    ensures |codes| == |id| && forall i :: 0 <= i < |id| ==> codes[i] == id[i] as nat
  {
    seq(|id|, i requires 0 <= i < |id| => id[i] as nat)
  }

  // What both checks mean.
  predicate SafeId(id: Text) {
    SafeRunes(Codes(id))
  }

  lemma SafeIdIs(id: Text)
    ensures SafeId(id) <==>
      && id != [] && id[|id| - 1] as nat != DOT && IsAlphanumeric(id[0] as nat)
      && forall k :: 1 <= k < |id| ==> IsAlphanumeric(id[k] as nat) || IsPunctuation(id[k] as nat)
  {
    if SafeId(id) {
      assert forall k :: 1 <= k < |id| ==> Codes(id)[k] == id[k] as nat;
    }
  }

  // isSafePathComponent: over the runes of the text, with the byte offset of each.
  method IsSafePathComponent(id: Text) returns (safe: bool)
    ensures safe <==> id == [] || SafeId(id)
  {
    SafeIdIs(id);
    if Codes(id) == [DOT] || Codes(id) == [DOT, DOT]
      || (|id| > 0 && id[0] as nat == DOT) || (|id| > 0 && id[|id| - 1] as nat == DOT) {
      return false;
    }
    var i := 0;
    while i < |id|
      invariant i <= |id|
      invariant i > 0 ==> IsAlphanumeric(id[0] as nat)
      invariant forall k :: 1 <= k < i ==> IsAlphanumeric(id[k] as nat) || IsPunctuation(id[k] as nat)
    {
      var (rune, size) := DecodeRune(id[i..]);
      if !(IsAlphanumeric(rune) || (i > 0 && IsPunctuation(rune))) {
        return false;
      }
      i := i + size;
    }
    return true;
  }

  lemma TrimKeeps(id: Text)
    requires id != [] && id[0] < 0x80 && id[|id| - 1] < 0x80
    requires !IsSpace(id[0] as nat) && !IsSpace(id[|id| - 1] as nat)
    ensures TrimSpace(id) == id
  {
  }

  // executorSafeTaskID: over the bytes of the text.
  method ExecutorSafeTaskID(id: Text) returns (safe: bool)
    ensures safe <==> SafeId(id)
  {
    SafeIdIs(id);
    if |id| == 0 {
      return false;
    }
    if SafeId(id) { TrimKeeps(id); }
    if TrimSpace(id) != id || id[0] as nat == DOT || id[|id| - 1] as nat == DOT {
      return false;
    }
    for index := 0 to |id|
      invariant index > 0 ==> IsAlphanumeric(id[0] as nat)
      invariant forall k :: 1 <= k < index ==> IsAlphanumeric(id[k] as nat) || IsPunctuation(id[k] as nat)
    {
      var b := id[index] as nat;
      if index == 0 {
        if b < 0x41 || b > 0x5A {
          if b < 0x61 || b > 0x7A {
            if b < 0x30 || b > 0x39 {
              return false;
            }
          }
        }
        continue;
      }
      if IsAlphanumeric(b) || b == 0x2E || b == 0x5F || b == 0x2D {
        continue;
      }
      return false;
    }
    return true;
  }

  // The planner accepts an identifier exactly when the executor does.
  method ChecksAgree(id: Text) returns (planned: bool, executable: bool)
    ensures planned <==> executable
    ensures executable <==> SafeId(id)
  {
    var component := IsSafePathComponent(id);
    planned := TrimSpace(id) != [] && component;
    executable := ExecutorSafeTaskID(id);
    SafeIdIs(id);
    if SafeId(id) { TrimKeeps(id); }
  }
}
