/** The UTF-8 sanitizer for server text, measured against section 4 of RFC 3629. */
module TextSanitizer {

  type Text = seq<bv8>

  const QUESTION_MARK: bv8 := 0x3f

  // ---- the grammar of RFC 3629, section 4 ----

  predicate Tail(b: bv8) { 0x80 <= b <= 0xbf }

  predicate Octets1(c: Text) { |c| == 1 && c[0] <= 0x7f }

  predicate Octets2(c: Text) { |c| == 2 && 0xc2 <= c[0] <= 0xdf && Tail(c[1]) }

  predicate Octets3(c: Text) {
    && |c| == 3 && Tail(c[2])
    && (|| (c[0] == 0xe0 && 0xa0 <= c[1] <= 0xbf)
        || (0xe1 <= c[0] <= 0xec && Tail(c[1]))
        || (c[0] == 0xed && 0x80 <= c[1] <= 0x9f)
        || (0xee <= c[0] <= 0xef && Tail(c[1])))
  }

  predicate Octets4(c: Text) {
    && |c| == 4 && Tail(c[2]) && Tail(c[3])
    && (|| (c[0] == 0xf0 && 0x90 <= c[1] <= 0xbf)
        || (0xf1 <= c[0] <= 0xf3 && Tail(c[1]))
        || (c[0] == 0xf4 && 0x80 <= c[1] <= 0x8f))
  }

  predicate Character(c: Text) { Octets1(c) || Octets2(c) || Octets3(c) || Octets4(c) }

  /** How many bytes the character at the front takes; 0 when there is none. */
  function CharacterLength(s: Text): (n: nat)
    ensures n <= |s| && n <= 4
    ensures n > 0 <==> exists k :: 0 < k <= |s| && Character(s[..k])
    ensures n > 0 ==> Character(s[..n])
    ensures forall k :: 0 < k <= |s| && Character(s[..k]) ==> k == n
  {
    if |s| >= 1 && Octets1(s[..1]) then 1
    else if |s| >= 2 && Octets2(s[..2]) then 2
    else if |s| >= 3 && Octets3(s[..3]) then 3
    else if |s| >= 4 && Octets4(s[..4]) then 4
    else 0
  }

  /** UTF8-octets = *( UTF8-char ) */
  predicate WellFormed(s: Text)
    decreases |s|
  {
    s == [] || (CharacterLength(s) > 0 && WellFormed(s[CharacterLength(s)..]))
  }

  /** The scalar value of a one- or two-byte character. */
  function ShortScalar(c: Text): bv16
    requires Octets1(c) || Octets2(c)
  {
    if |c| == 1 then c[0] as bv16 else ((c[0] as bv16 & 0x1f) << 6) | (c[1] as bv16 & 0x3f)
  }

  predicate ControlScalar(v: bv16) { v < 0x20 || v == 0x7f || 0x80 <= v <= 0x9f }

  predicate Printable(c: Text)
    requires Character(c)
  {
    if |c| <= 2 then !ControlScalar(ShortScalar(c)) else |c| == 3
  }

  /** Well-formed, without control characters and without four-byte characters. */
  predicate Clean(s: Text)
    decreases |s|
  {
    || s == []
    || (var n := CharacterLength(s);
        n > 0 && Printable(s[..n]) && Clean(s[n..]))
  }

  // ---- the code ----

  predicate IsContinuation(ch: bv8) { ch & 0xc0 == 0x80 }

  predicate IsControl(codepoint: bv16) {
    codepoint < 0x20 || codepoint == 0x7f || (codepoint >= 0x80 && codepoint <= 0x9f)
  }

  datatype Sanitized = Sanitized(utf8: Text, replacements: nat)

  function ContinuationRun(s: Text): (n: nat)
    ensures n <= |s|
    ensures forall k :: 0 <= k < n ==> IsContinuation(s[k])
    ensures n < |s| ==> !IsContinuation(s[n])
  {
    if s != [] && IsContinuation(s[0]) then 1 + ContinuationRun(s[1..]) else 0
  }

  /** AppendReplacement: a known length is skipped; otherwise the byte and the continuations behind it. */
  method AppendReplacement(result: Sanitized, source: Text, offset: nat, sequenceBytes: nat)
    returns (grown: Sanitized, next: nat)
    requires offset < |source| && sequenceBytes <= |source| - offset
    ensures grown == Sanitized(result.utf8 + [QUESTION_MARK], result.replacements + 1)
    ensures next == offset
      + (if sequenceBytes != 0 then sequenceBytes else 1 + ContinuationRun(source[offset + 1..]))
  {
    grown := Sanitized(result.utf8 + [QUESTION_MARK], result.replacements + 1);
    if sequenceBytes != 0 {
      return grown, offset + sequenceBytes;
    }
    next := offset + 1;
    while next < |source| && IsContinuation(source[next])
      invariant offset + 1 <= next <= |source|
      invariant next + ContinuationRun(source[next..]) == offset + 1 + ContinuationRun(source[offset + 1..])
    {
      assert source[next..][1..] == source[next + 1..];
      next := next + 1;
    }
    assert ContinuationRun(source[next..]) == 0;
  }

  method SanitizeUtf8(source: Text) returns (result: Sanitized)
    ensures result == Sanitize(source)
  {
    result := Sanitized([], 0);
    var offset := 0;
    while offset < |source|
      invariant 0 <= offset <= |source|
      invariant Sanitize(source) == Prepend(result, Sanitize(source[offset..]))
    {
      ghost var rest := source[offset..];
      ghost var was := result;
      ghost var from := offset;
      result, offset := SanitizeOne(result, source, offset);
      assert source[offset..] == rest[Consumed(rest)..];
      PrependAssociates(was, Emitted(rest), Sanitize(source[offset..]));
    }
    assert source[offset..] == [];
  }

  /** One turn of the scanning loop. */
  method SanitizeOne(result: Sanitized, source: Text, offset: nat) returns (grown: Sanitized, next: nat)
    requires offset < |source|
    ensures grown == Prepend(result, Emitted(source[offset..]))
    ensures next == offset + Consumed(source[offset..])
  {
    ghost var rest := source[offset..];
    var first := source[offset];
    if first < 0x80 {
      assert rest[..1] == [first];
      if IsControl(first as bv16) {
        grown, next := AppendReplacement(result, source, offset, 1);
      } else {
        grown, next := Sanitized(result.utf8 + [first], result.replacements), offset + 1;
      }
      return;
    }
    if first >= 0xc2 && first <= 0xdf && offset + 1 < |source| {
      var second := source[offset + 1];
      if IsContinuation(second) {
        ContinuationIsTail(second);
        assert rest[..2] == [first, second] == source[offset..offset + 2];
        var codepoint := ((first as bv16 & 0x1f) << 6) | (second as bv16 & 0x3f);
        if IsControl(codepoint) {
          grown, next := AppendReplacement(result, source, offset, 2);
        } else {
          grown, next := Sanitized(result.utf8 + source[offset..offset + 2], result.replacements), offset + 2;
        }
        return;
      }
    }
    if first >= 0xe0 && first <= 0xef && offset + 2 < |source| {
      var second, third := source[offset + 1], source[offset + 2];
      var validSecond := IsContinuation(second)
        && (first != 0xe0 || second >= 0xa0) && (first != 0xed || second <= 0x9f);
      assert rest[..3] == [first, second, third] == source[offset..offset + 3];
      if validSecond && IsContinuation(third) {
        ThreeByteTest(rest[..3]);
        grown, next := Sanitized(result.utf8 + source[offset..offset + 3], result.replacements), offset + 3;
        return;
      }
    }
    if first >= 0xf0 && first <= 0xf4 && offset + 3 < |source| {
      var second, third, fourth := source[offset + 1], source[offset + 2], source[offset + 3];
      var validSecond := IsContinuation(second)
        && (first != 0xf0 || second >= 0x90) && (first != 0xf4 || second <= 0x8f);
      assert rest[..4] == [first, second, third, fourth];
      if validSecond && IsContinuation(third) && IsContinuation(fourth) {
        FourByteTest(rest[..4]);
        grown, next := AppendReplacement(result, source, offset, 4);
        return;
      }
    }
    NoCharacterTest(rest);
    grown, next := AppendReplacement(result, source, offset, 0);
    assert source[offset + 1..] == rest[1..];
  }

  lemma ContinuationIsTail(b: bv8)
    ensures IsContinuation(b) <==> Tail(b)
  {
  }

  /** The code's three-byte test accepts just the UTF8-3 production. */
  lemma ThreeByteTest(c: Text)
    requires |c| == 3
    ensures Octets3(c) <==>
      && c[0] >= 0xe0 && c[0] <= 0xef && IsContinuation(c[1]) && IsContinuation(c[2])
      && (c[0] != 0xe0 || c[1] >= 0xa0) && (c[0] != 0xed || c[1] <= 0x9f)
  {
    ContinuationIsTail(c[1]);
    ContinuationIsTail(c[2]);
  }

  lemma FourByteTest(c: Text)
    requires |c| == 4
    ensures Octets4(c) <==>
      && c[0] >= 0xf0 && c[0] <= 0xf4
      && IsContinuation(c[1]) && IsContinuation(c[2]) && IsContinuation(c[3])
      && (c[0] != 0xf0 || c[1] >= 0x90) && (c[0] != 0xf4 || c[1] <= 0x8f)
  {
    ContinuationIsTail(c[1]);
    ContinuationIsTail(c[2]);
    ContinuationIsTail(c[3]);
  }

  /** When every branch of the code is passed over, the grammar has no character there either. */
  lemma NoCharacterTest(s: Text)
    requires s != [] && s[0] >= 0x80
    requires |s| >= 2 && 0xc2 <= s[0] <= 0xdf ==> !IsContinuation(s[1])
    requires |s| >= 3 && 0xe0 <= s[0] <= 0xef ==>
      !(IsContinuation(s[1]) && IsContinuation(s[2])
        && (s[0] != 0xe0 || s[1] >= 0xa0) && (s[0] != 0xed || s[1] <= 0x9f))
    requires |s| >= 4 && 0xf0 <= s[0] <= 0xf4 ==>
      !(IsContinuation(s[1]) && IsContinuation(s[2]) && IsContinuation(s[3])
        && (s[0] != 0xf0 || s[1] >= 0x90) && (s[0] != 0xf4 || s[1] <= 0x8f))
    ensures CharacterLength(s) == 0
  {
    if |s| >= 2 { ContinuationIsTail(s[1]); }
    if |s| >= 3 { ThreeByteTest(s[..3]); }
    if |s| >= 4 { FourByteTest(s[..4]); }
  }

  // ---- what one turn does, in the grammar's terms ----

  function Consumed(s: Text): (n: nat)
    requires s != []
    ensures 0 < n <= |s|
  {
    var n := CharacterLength(s);
    if n > 0 then n else 1 + ContinuationRun(s[1..])
  }

  function Emitted(s: Text): Sanitized
    requires s != []
  {
    var n := CharacterLength(s);
    if n > 0 && Printable(s[..n]) then Sanitized(s[..n], 0) else Sanitized([QUESTION_MARK], 1)
  }

  function Prepend(a: Sanitized, b: Sanitized): Sanitized {
    Sanitized(a.utf8 + b.utf8, a.replacements + b.replacements)
  }

  function Sanitize(s: Text): Sanitized
    decreases |s|
  {
    if s == [] then Sanitized([], 0) else Prepend(Emitted(s), Sanitize(s[Consumed(s)..]))
  }

  lemma PrependAssociates(a: Sanitized, b: Sanitized, c: Sanitized)
    ensures Prepend(Prepend(a, b), c) == Prepend(a, Prepend(b, c))
  {
  }

  // ---- the promises ----

  lemma CharacterSurvivesSuffix(c: Text, s: Text)
    requires Character(c)
    ensures CharacterLength(c + s) == |c| && (c + s)[..|c|] == c && (c + s)[|c|..] == s
  {
    assert (c + s)[..|c|] == c;
  }

  lemma {:induction false} CleanPrepend(c: Text, s: Text)
    requires Character(c) && Printable(c) && Clean(s)
    ensures Clean(c + s)
  {
    CharacterSurvivesSuffix(c, s);
  }

  lemma QuestionMarkPrintable()
    ensures Character([QUESTION_MARK]) && Printable([QUESTION_MARK])
  {
  }

  /** For every byte string the output is well formed, free of controls and of four-byte characters. */
  lemma {:induction false} OutputIsClean(s: Text)
    ensures Clean(Sanitize(s).utf8)
    decreases |s|
  {
    if s != [] {
      OutputIsClean(s[Consumed(s)..]);
      QuestionMarkPrintable();
      CleanPrepend(Emitted(s).utf8, Sanitize(s[Consumed(s)..]).utf8);
    }
  }

  lemma {:induction false} CleanIsWellFormed(s: Text)
    requires Clean(s)
    ensures WellFormed(s)
    decreases |s|
  {
    if s != [] {
      CleanIsWellFormed(s[CharacterLength(s)..]);
    }
  }

  lemma {:induction false} CleanIsKept(s: Text)
    requires Clean(s)
    ensures Sanitize(s) == Sanitized(s, 0)
    decreases |s|
  {
    if s != [] {
      CleanIsKept(s[CharacterLength(s)..]);
    }
  }

  lemma {:induction false} UnreplacedIsClean(s: Text)
    requires Sanitize(s).replacements == 0
    ensures Clean(s)
    decreases |s|
  {
    if s != [] {
      UnreplacedIsClean(s[Consumed(s)..]);
    }
  }

  /** Text is returned as it came exactly when it is clean, which is exactly when nothing is counted. */
  lemma KeptExactlyWhenClean(s: Text)
    ensures Sanitize(s).utf8 == s <==> Clean(s)
    ensures Sanitize(s).replacements == 0 <==> Clean(s)
  {
    OutputIsClean(s);
    if Clean(s) {
      CleanIsKept(s);
    }
    if Sanitize(s).replacements == 0 {
      UnreplacedIsClean(s);
    }
  }

  lemma SanitizeIsIdempotent(s: Text)
    ensures Sanitize(Sanitize(s).utf8) == Sanitized(Sanitize(s).utf8, 0)
    ensures WellFormed(Sanitize(s).utf8)
  {
    OutputIsClean(s);
    CleanIsKept(Sanitize(s).utf8);
    CleanIsWellFormed(Sanitize(s).utf8);
  }

  /** Text after a well-formed prefix is treated as if it stood alone. */
  lemma {:induction false} SanitizeDistributes(a: Text, b: Text)
    requires WellFormed(a)
    ensures Sanitize(a + b) == Prepend(Sanitize(a), Sanitize(b))
    decreases |a|
  {
    if a == [] {
      assert a + b == b;
    } else {
      var n := CharacterLength(a);
      assert a + b == a[..n] + (a[n..] + b);
      CharacterSurvivesSuffix(a[..n], a[n..] + b);
      assert Consumed(a + b) == n == Consumed(a) && Emitted(a + b) == Emitted(a);
      SanitizeDistributes(a[n..], b);
      PrependAssociates(Emitted(a), Sanitize(a[n..]), Sanitize(b));
    }
  }

  /** The output is never longer than the input, and each replacement stands for at least one byte of it. */
  lemma {:induction false} OutputLength(s: Text)
    ensures Sanitize(s).replacements <= |Sanitize(s).utf8| <= |s|
    decreases |s|
  {
    if s != [] {
      OutputLength(s[Consumed(s)..]);
    }
  }

  /** Without the prefix being well formed it fails: a lone lead byte swallows the continuation after it. */
  lemma DistributionNeedsWellFormedPrefix()
    ensures var a, b: Text := [0xe3], [0x81];
      !WellFormed(a) && Sanitize(a + b) != Prepend(Sanitize(a), Sanitize(b))
  {
    var a: Text, b: Text := [0xe3], [0x81];
    assert CharacterLength(a + b) == 0 && (a + b)[1..] == b && b[1..] == [];
    assert ContinuationRun(b) == 1 + ContinuationRun(b[1..]);
    assert Consumed(a + b) == 2 && (a + b)[2..] == [];
    assert CharacterLength(a) == 0 && a[1..] == [] && Consumed(a) == 1;
    assert CharacterLength(b) == 0 && Consumed(b) == 1;
    assert |Sanitize(a + b).utf8| == 1;
    assert |Sanitize(a).utf8| == 1 && |Sanitize(b).utf8| == 1;
  }

  // ---- what becomes of each character ----

  function Flatten(characters: seq<Text>): Text {
    if characters == [] then [] else characters[0] + Flatten(characters[1..])
  }

  /** A character as it is shown: itself, or a question mark for a control or four-byte one. */
  function Shown(c: Text): Text
    requires Character(c)
  {
    if Octets4(c) || (|c| == 1 && (c[0] < 0x20 || c[0] == 0x7f)) || (|c| == 2 && c[0] == 0xc2 && c[1] < 0xa0) then [0x3f]
    else c
  }

  function ShownAll(characters: seq<Text>): Text
    requires forall k :: 0 <= k < |characters| ==> Character(characters[k])
  {
    if characters == [] then [] else Shown(characters[0]) + ShownAll(characters[1..])
  }

  /** How many of the characters are not shown as they are. */
  function Hidden(characters: seq<Text>): nat
    requires forall k :: 0 <= k < |characters| ==> Character(characters[k])
  {
    if characters == [] then 0
    else (if Shown(characters[0]) == characters[0] then 0 else 1) + Hidden(characters[1..])
  }

  /** U+0080 to U+009F are the two-byte characters that begin with C2 and end below A0. */
  lemma HighControls(c: Text)
    requires Octets2(c)
    ensures ControlScalar(ShortScalar(c)) <==> c[0] == 0xc2 && c[1] < 0xa0
  {
    HighControlBytes(c[0], c[1]);
  }

  lemma HighControlBytes(first: bv8, second: bv8)
    requires 0xc2 <= first <= 0xdf && Tail(second)
    ensures var v := ((first as bv16 & 0x1f) << 6) | (second as bv16 & 0x3f);
      ControlScalar(v) <==> first == 0xc2 && second < 0xa0
  {
  }

  lemma ShownIsEmitted(c: Text, s: Text)
    requires Character(c)
    ensures Consumed(c + s) == |c| && (c + s)[|c|..] == s
    ensures Emitted(c + s) == Sanitized(Shown(c), if Shown(c) == c then 0 else 1)
  {
    CharacterSurvivesSuffix(c, s);
    if |c| == 1 { LowControlByte(c[0]); }
    if |c| == 2 { HighControls(c); }
  }

  lemma LowControlByte(b: bv8)
    requires b <= 0x7f
    ensures ControlScalar(b as bv16) <==> b < 0x20 || b == 0x7f
  {
  }

  /** Well-formed text is shown character by character, and every character hidden is counted once. */
  lemma {:induction false} EachCharacterIsShown(characters: seq<Text>)
    requires forall k :: 0 <= k < |characters| ==> Character(characters[k])
    ensures Sanitize(Flatten(characters)) == Sanitized(ShownAll(characters), Hidden(characters))
    decreases |characters|
  {
    hide Shown;
    if characters != [] {
      ShownIsEmitted(characters[0], Flatten(characters[1..]));
      EachCharacterIsShown(characters[1..]);
    }
  }

  /** A byte that begins no character is shown, with all continuation bytes behind it, as one question mark. */
  lemma MalformedIsOneMark(run: Text, s: Text)
    requires run != [] && CharacterLength(run + s) == 0
    requires forall k :: 1 <= k < |run| ==> Tail(run[k])
    requires s != [] ==> !Tail(s[0])
    ensures Sanitize(run + s) == Prepend(Sanitized([0x3f], 1), Sanitize(s))
  {
    var all := run + s;
    forall k | 0 <= k < |run| - 1 ensures IsContinuation(all[1..][k]) {
      assert all[1..][k] == run[k + 1];
      ContinuationIsTail(run[k + 1]);
    }
    if s != [] {
      assert all[1..][|run| - 1] == s[0];
      ContinuationIsTail(s[0]);
    }
    var n := ContinuationRun(all[1..]);
    assert n == |run| - 1;
    assert all[|run|..] == s;
  }
}
