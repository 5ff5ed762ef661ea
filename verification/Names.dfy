/**
 Tracepoint names: `fix_tracepoint_str` (src/lib.rs:460-474) and the key under which
 `set_tracepoints` looks a received name up (src/tcp_handler.rs:298-302).
 A string is the sequence of its UTF-8 bytes.
 */
module Names {
  import opened Bytes

  type Name = seq<byte>

  const MAX_TRACEPOINT_NAME_LEN: nat := 32

  predicate IsAscii(s: Name) {
    forall i :: 0 <= i < |s| ==> s[i] < 128
  }

  predicate IsUpper(b: byte) {
    65 <= b <= 90
  }

  function LowerByte(b: byte): byte {
    if IsUpper(b) then b + 32 else b
  }

  function Lower(s: Name): (r: Name)
    ensures |r| == |s|
    ensures forall i :: 0 <= i < |s| ==> r[i] == LowerByte(s[i])
  {
    seq(|s|, i requires 0 <= i < |s| => LowerByte(s[i]))
  }

  function Truncate(s: Name): Name {
    if |s| > MAX_TRACEPOINT_NAME_LEN then s[..MAX_TRACEPOINT_NAME_LEN] else s
  }

  function FixTracepointStr(s: Name): Option<Name> {
    if !IsAscii(s) then None else Some(Lower(Truncate(s)))
  }

  /** The normal form: at most 32 ASCII bytes, none of them an upper-case letter. */
  predicate IsNormal(s: Name) {
    && |s| <= MAX_TRACEPOINT_NAME_LEN
    && forall i :: 0 <= i < |s| ==> s[i] < 128 && !IsUpper(s[i])
  }

  /** Accepted exactly when ASCII, and what is accepted is put in normal form. */
  lemma FixYieldsNormalNames(s: Name)
    ensures FixTracepointStr(s).Some? <==> IsAscii(s)
    ensures FixTracepointStr(s).Some? ==> IsNormal(FixTracepointStr(s).value)
  {
  }

  /** The normal names are exactly the fixed points. */
  lemma NormalIffFixedPoint(s: Name)
    ensures FixTracepointStr(s) == Some(s) <==> IsNormal(s)
  {
    if IsNormal(s) {
      assert Lower(Truncate(s)) == s;
    } else if FixTracepointStr(s) == Some(s) {
      FixYieldsNormalNames(s);
    }
  }

  lemma FixIsIdempotent(s: Name)
    requires FixTracepointStr(s).Some?
    ensures FixTracepointStr(FixTracepointStr(s).value) == FixTracepointStr(s)
  {
    FixYieldsNormalNames(s);
    NormalIffFixedPoint(FixTracepointStr(s).value);
  }

  /** Two bytes are the same letter, whatever their case. */
  predicate SameLetter(a: byte, b: byte) {
    || a == b
    || (IsUpper(a) && b == a + 32)
    || (IsUpper(b) && a == b + 32)
  }

  predicate AgreeOnLimit(a: Name, b: Name) {
    && Min(|a|, MAX_TRACEPOINT_NAME_LEN) == Min(|b|, MAX_TRACEPOINT_NAME_LEN)
    && forall i :: 0 <= i < Min(|a|, MAX_TRACEPOINT_NAME_LEN) ==> SameLetter(a[i], b[i])
  }

  /** Two accepted strings name one tracepoint exactly when their first 32 bytes agree up to case. */
  lemma SameNormalFormIff(a: Name, b: Name)
    requires IsAscii(a) && IsAscii(b)
    ensures FixTracepointStr(a) == FixTracepointStr(b) <==> AgreeOnLimit(a, b)
  {
    var ta, tb := Truncate(a), Truncate(b);
    assert |ta| == Min(|a|, MAX_TRACEPOINT_NAME_LEN) && |tb| == Min(|b|, MAX_TRACEPOINT_NAME_LEN);
    assert forall i :: 0 <= i < |ta| ==> ta[i] == a[i];
    assert forall i :: 0 <= i < |tb| ==> tb[i] == b[i];
    if AgreeOnLimit(a, b) {
      forall i | 0 <= i < |ta|
        ensures Lower(ta)[i] == Lower(tb)[i]
      {
        assert SameLetter(a[i], b[i]);
      }
      assert Lower(ta) == Lower(tb);
    } else if Lower(ta) == Lower(tb) {
      assert |ta| == |tb|;
      forall i | 0 <= i < |ta|
        ensures SameLetter(a[i], b[i])
      {
        assert Lower(ta)[i] == LowerByte(ta[i]) && Lower(tb)[i] == LowerByte(tb[i]);
      }
    }
  }

  predicate Continuation(b: byte) {
    0x80 <= b < 0xC0
  }

  /** The number of bytes of the well-formed UTF-8 sequence at the head of `s`, 0 if there is none. */
  function Utf8Head(s: Name): (n: nat)
    requires s != []
    ensures n <= |s|
    ensures s[0] < 128 ==> n == 1
  {
    var b := s[0];
    if b < 0x80 then 1
    else if |s| >= 2 && 0xC2 <= b < 0xE0 && Continuation(s[1]) then 2
    else if |s| >= 3 && 0xE0 <= b < 0xF0 && Continuation(s[1]) && Continuation(s[2])
            && (b == 0xE0 ==> s[1] >= 0xA0) && (b == 0xED ==> s[1] < 0xA0) then 3
    else if |s| >= 4 && 0xF0 <= b < 0xF5 && Continuation(s[1]) && Continuation(s[2]) && Continuation(s[3])
            && (b == 0xF0 ==> s[1] >= 0x90) && (b == 0xF4 ==> s[1] < 0x90) then 4
    else 0
  }

  predicate ValidUtf8(s: Name) {
    s == [] || (Utf8Head(s) > 0 && ValidUtf8(s[Utf8Head(s)..]))
  }

  /** `from_utf8(..).unwrap_or_default()`: bytes that are not UTF-8 look up the empty name. */
  function LookupKey(s: Name): Name {
    if ValidUtf8(s) then s else []
  }

  /** "e" with an acute accent is a name of its own; a byte that starts no character is not. */
  lemma OnlyBrokenNamesLookUpTheEmptyOne()
    ensures LookupKey([0xC3, 0xA9]) == [0xC3, 0xA9]
    ensures LookupKey([0x61, 0xFF]) == [] && LookupKey([0xC3]) == []
  {
    assert [0xC3, 0xA9][2..] == [];
    assert [0x61, 0xFF][1..] == [0xFF];
    assert Utf8Head([0xFF]) == 0 && Utf8Head([0xC3]) == 0;
  }

  lemma {:induction false} AsciiLooksItselfUp(s: Name)
    requires IsAscii(s)
    ensures LookupKey(s) == s
  {
    if s != [] {
      AsciiLooksItselfUp(s[1..]);
      assert s[1..] != [] ==> ValidUtf8(s[1..]);
    }
  }
}
