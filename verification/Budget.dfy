/**
 The output budget of one tool invocation. A text is a sequence of Unicode characters; its bytes are
 its UTF-8 form (RFC 3629, section 3). When a text does not fit, its first bytes are turned back into
 text, and a character cut in the middle comes back as the replacement character.
 */
module Budget {
  import opened Delimited

  const REPLACEMENT: char := '\U{FFFD}'
  const TRUNCATION_SUFFIX := "\n\U{2026}[output truncated: budget exceeded]"

  // ---- UTF-8 ----

  function EncodeChar(c: char): (r: seq<nat>)
    ensures 1 <= |r| <= 4
    ensures forall b | b in r :: b < 256
  {
    var n := c as int;
    if n < 0x80 then [n]
    else if n < 0x800 then [0xC0 + n / 64, 0x80 + n % 64]
    else if n < 0x10000 then [0xE0 + n / 4096, 0x80 + n / 64 % 64, 0x80 + n % 64]
    else [0xF0 + n / 262144, 0x80 + n / 4096 % 64, 0x80 + n / 64 % 64, 0x80 + n % 64]
  }

  function Encode(text: string): seq<nat> {
    if text == "" then [] else EncodeChar(text[0]) + Encode(text[1..])
  }

  /** How many bytes the character starting with this byte takes. */
  function Width(lead: nat): (w: nat)
    ensures 1 <= w <= 4
  {
    if lead < 0xC0 then 1 else if lead < 0xE0 then 2 else if lead < 0xF0 then 3 else 4
  }

  function Bits(b: nat): nat { b % 64 }

  function CodePoint(b: seq<nat>): nat
    requires b != [] && |b| == Width(b[0])
  {
    match |b|
    case 1 => b[0]
    case 2 => b[0] % 32 * 64 + Bits(b[1])
    case 3 => b[0] % 16 * 4096 + Bits(b[1]) * 64 + Bits(b[2])
    case _ => b[0] % 8 * 262144 + Bits(b[1]) * 4096 + Bits(b[2]) * 64 + Bits(b[3])
  }

  function ToChar(n: nat): char {
    if n < 0xD800 || 0xE000 <= n < 0x110000 then n as char else REPLACEMENT
  }

  /** Decoding a beginning of well-formed bytes: an unfinished last character becomes one replacement. */
  function Decode(bytes: seq<nat>): string {
    if bytes == [] then ""
    else
      var w := Width(bytes[0]);
      if |bytes| < w then [REPLACEMENT] else [ToChar(CodePoint(bytes[..w]))] + Decode(bytes[w..])
  }

  function Size(text: string): nat { |Encode(text)| }

  /** The six-bit groups of a number, read back from its bytes. */
  lemma Two(n: nat)
    requires n < 0x800
    ensures (0xC0 + n / 64) % 32 * 64 + Bits(0x80 + n % 64) == n
  {
    assert (0xC0 + n / 64) % 32 == n / 64;
  }

  lemma Three(n: nat)
    requires n < 0x10000
    ensures (0xE0 + n / 4096) % 16 * 4096 + Bits(0x80 + n / 64 % 64) * 64 + Bits(0x80 + n % 64) == n
  {
    var q := n / 64;
    assert n / 4096 == q / 64;
    assert (0xE0 + q / 64) % 16 == q / 64;
    assert Bits(0x80 + q % 64) == q % 64 && Bits(0x80 + n % 64) == n % 64;
  }

  lemma {:induction false} Four(n: nat)
    requires n < 0x110000
    ensures (0xF0 + n / 262144) % 8 * 262144 + Bits(0x80 + n / 4096 % 64) * 4096
            + Bits(0x80 + n / 64 % 64) * 64 + Bits(0x80 + n % 64) == n
  {
    var q := n / 64;
    var r := q / 64;
    assert n / 4096 == r && n / 262144 == r / 64;
    assert (0xF0 + r / 64) % 8 == r / 64;
    assert Bits(0x80 + r % 64) == r % 64 && Bits(0x80 + q % 64) == q % 64 && Bits(0x80 + n % 64) == n % 64;
  }

  lemma {:induction false} EncodedChar(c: char)
    ensures var b := EncodeChar(c); |b| == Width(b[0]) && ToChar(CodePoint(b)) == c
  {
    var n := c as int;
    hide Bits;
    if 0x80 <= n < 0x800 {
      Two(n);
    } else if 0x800 <= n < 0x10000 {
      Three(n);
    } else if n >= 0x10000 {
      Four(n);
    }
  }

  /** What the first `n` bytes of a text decode to. */
  function Cut(text: string, n: nat): string {
    if text == "" || n == 0 then ""
    else
      var w := |EncodeChar(text[0])|;
      if w <= n then [text[0]] + Cut(text[1..], n - w) else [REPLACEMENT]
  }

  lemma {:induction false} DecodeIsCut(text: string, n: nat)
    requires n <= Size(text)
    ensures Decode(Encode(text)[..n]) == Cut(text, n)
  {
    if text != "" && n > 0 {
      var first, rest := EncodeChar(text[0]), Encode(text[1..]);
      EncodedChar(text[0]);
      var bytes := Encode(text)[..n];
      assert bytes[0] == first[0];
      if |first| <= n {
        assert bytes == first + rest[..n - |first|];
        DecodeIsCut(text[1..], n - |first|);
      }
    }
  }

  // ---- the accumulator ----

  datatype State = State(remaining: nat, truncated: bool)

  function Taken(s: State, text: string): (State, string) {
    if s.truncated then (s, "")
    else if Size(text) <= s.remaining then (s.(remaining := s.remaining - Size(text)), text)
    else (State(0, true), Cut(text, s.remaining) + TRUNCATION_SUFFIX)
  }

  class BudgetAccumulator {
    var remainingBytes: nat
    var hasTruncated: bool

    function Now(): State
      reads this
    {
      State(remainingBytes, hasTruncated)
    }

    constructor (limitBytes: nat)
      ensures Now() == State(limitBytes, false)
    {
      remainingBytes, hasTruncated := limitBytes, false;
    }

    method Take(text: string) returns (kept: string)
      modifies this
      ensures (Now(), kept) == Taken(old(Now()), text)
    {
      if hasTruncated {
        return "";
      }
      var bytes := Encode(text);
      if |bytes| <= remainingBytes {
        remainingBytes := remainingBytes - |bytes|;
        return text;
      }
      DecodeIsCut(text, remainingBytes);
      var head := Decode(bytes[..remainingBytes]);
      remainingBytes := 0;
      hasTruncated := true;
      return head + TRUNCATION_SUFFIX;
    }
  }

  /** The outputs for a sequence of chunks. */
  function TakeAll(s: State, chunks: seq<string>): (State, seq<string>)
    decreases |chunks|
  {
    if chunks == [] then (s, [])
    else
      var (t, kept) := Taken(s, chunks[0]);
      var (u, later) := TakeAll(t, chunks[1..]);
      (u, [kept] + later)
  }

  lemma {:induction false} TakeAllSnoc(s: State, chunks: seq<string>, text: string)
    ensures var (t, kept) := TakeAll(s, chunks);
      TakeAll(s, chunks + [text]) == (Taken(t, text).0, kept + [Taken(t, text).1])
    decreases |chunks|
  {
    hide Taken;
    if chunks == [] {
      var (u, out) := Taken(s, text);
      assert ([] + [text])[1..] == [] && [out] + [] == [out] && [] + [out] == [out];
      assert TakeAll(u, []) == (u, []);
    } else {
      var t, more := Taken(s, chunks[0]).0, chunks + [text];
      assert more[1..] == chunks[1..] + [text];
      TakeAllSnoc(t, chunks[1..], text);
      var (u, later) := TakeAll(t, chunks[1..]);
      assert [Taken(s, chunks[0]).1] + (later + [Taken(u, text).1])
           == ([Taken(s, chunks[0]).1] + later) + [Taken(u, text).1];
      assert more[0] == chunks[0];
    }
  }

  // ---- what the chunks amount to ----

  /** One truncation of the whole text. */
  function Once(limit: nat, text: string): string {
    if Size(text) <= limit then text else Cut(text, limit) + TRUNCATION_SUFFIX
  }

  lemma {:induction false} EncodeAppend(a: string, b: string)
    ensures Encode(a + b) == Encode(a) + Encode(b)
  {
    if a == "" {
      assert a + b == b;
    } else {
      assert (a + b)[1..] == a[1..] + b;
      EncodeAppend(a[1..], b);
    }
  }

  lemma CutStep(text: string, n: nat)
    ensures text == "" ==> Cut(text, n) == "" && Size(text) == 0
    ensures text != "" ==>
      var w := |EncodeChar(text[0])|;
      && w > 0 && Size(text) == w + Size(text[1..])
      && Cut(text, n) == if n == 0 then "" else if w <= n then [text[0]] + Cut(text[1..], n - w) else [REPLACEMENT]
  {
    hide EncodeChar;
  }

  lemma {:induction false} CutAppend(a: string, b: string, n: nat)
    ensures Cut(a + b, n) == if n < Size(a) then Cut(a, n) else a + Cut(b, n - Size(a))
  {
    hide EncodeChar, Encode, Cut;
    CutStep(a + b, n);
    CutStep(a, n);
    if a == "" {
      assert a + b == b && a + Cut(b, n) == Cut(b, n);
    } else {
      assert (a + b)[1..] == a[1..] + b && (a + b)[0] == a[0];
      var w := |EncodeChar(a[0])|;
      if n >= w {
        CutAppend(a[1..], b, n - w);
        assert [a[0]] + a[1..] == a;
        if n >= Size(a) {
          var tail := Cut(b, n - Size(a));
          assert [a[0]] + (a[1..] + tail) == ([a[0]] + a[1..]) + tail;
        }
      }
    }
  }

  lemma {:induction false} AfterTruncation(s: State, chunks: seq<string>)
    requires s.truncated
    ensures TakeAll(s, chunks).0 == s && Concat(TakeAll(s, chunks).1) == ""
    decreases |chunks|
  {
    if chunks != [] {
      AfterTruncation(s, chunks[1..]);
    }
  }

  /**
   However a text is split into chunks, the outputs put together are one truncation of the whole
   text, and the accumulator reports a truncation exactly when the text exceeds the limit.
   */
  lemma {:induction false} SplitDoesNotMatter(limit: nat, chunks: seq<string>)
    ensures var (s, outputs) := TakeAll(State(limit, false), chunks);
      && Concat(outputs) == Once(limit, Concat(chunks))
      && (s.truncated <==> Size(Concat(chunks)) > limit)
      && |outputs| == |chunks|
    decreases |chunks|
  {
    hide EncodeChar, Encode, Cut, TakeAll;
    EmptyIsFree();
    TakeAllFirst(State(limit, false), chunks);
    if chunks != [] {
      var first, rest := chunks[0], chunks[1..];
      var whole := Concat(rest);
      EncodeAppend(first, whole);
      CutAppend(first, whole, limit);
      if Size(first) <= limit {
        SplitDoesNotMatter(limit - Size(first), rest);
        assert first + (Cut(whole, limit - Size(first)) + TRUNCATION_SUFFIX)
            == (first + Cut(whole, limit - Size(first))) + TRUNCATION_SUFFIX;
      } else {
        AfterTruncation(State(0, true), rest);
        OutputPerChunk(State(0, true), rest);
        var out := Cut(first, limit) + TRUNCATION_SUFFIX;
        assert out + "" == out;
      }
    }
  }

  lemma TakeAllFirst(s: State, chunks: seq<string>)
    ensures chunks == [] ==> TakeAll(s, chunks) == (s, [])
    ensures chunks != [] ==>
      var (t, kept) := Taken(s, chunks[0]);
      var (u, later) := TakeAll(t, chunks[1..]);
      TakeAll(s, chunks) == (u, [kept] + later) && Concat([kept] + later) == kept + Concat(later)
  {
    hide Taken;
    if chunks != [] {
      var (t, kept) := Taken(s, chunks[0]);
      var later := TakeAll(t, chunks[1..]).1;
      assert ([kept] + later)[1..] == later;
    }
  }

  lemma EmptyIsFree()
    ensures Encode("") == []
  {
  }

  lemma {:induction false} OutputPerChunk(s: State, chunks: seq<string>)
    ensures |TakeAll(s, chunks).1| == |chunks|
    decreases |chunks|
  {
    hide Taken;
    if chunks != [] {
      OutputPerChunk(Taken(s, chunks[0]).0, chunks[1..]);
    }
  }

  // ---- how much is kept ----

  /** How many bytes of a character the cut after `n` bytes leaves behind. */
  function Dangling(text: string, n: nat): (r: nat)
    ensures r <= 3
  {
    if text == "" then 0
    else
      var w := |EncodeChar(text[0])|;
      if w <= n then Dangling(text[1..], n - w) else n
  }

  /** A cut character's bytes are replaced by the three bytes of the replacement character. */
  lemma {:induction false} CutSize(text: string, n: nat)
    requires n <= Size(text)
    ensures Size(Cut(text, n)) == n - Dangling(text, n) + (if Dangling(text, n) > 0 then 3 else 0)
  {
    if text != "" && n > 0 {
      var w := |EncodeChar(text[0])|;
      if w <= n {
        CutSize(text[1..], n - w);
        assert ([text[0]] + Cut(text[1..], n - w))[1..] == Cut(text[1..], n - w);
      } else {
        assert Encode([REPLACEMENT]) == EncodeChar(REPLACEMENT) + Encode("");
      }
    }
  }

  /**
   The cap on a truncated output is the limit plus the suffix plus at most two bytes; the head alone
   exceeds the limit exactly when the cut leaves one or two bytes of a character.
   */
  lemma {:induction false} OutputBound(limit: nat, text: string)
    requires Size(text) > limit
    ensures Size(Once(limit, text)) <= limit + 2 + Size(TRUNCATION_SUFFIX)
    ensures Size(Cut(text, limit)) > limit <==> 1 <= Dangling(text, limit) <= 2
  {
    CutSize(text, limit);
    EncodeAppend(Cut(text, limit), TRUNCATION_SUFFIX);
  }

  /** Both bytes too many: a limit of one byte and a character of two. */
  lemma {:induction false} OverTheLimit()
    ensures var text := "\U{00E9}";
      Size(text) == 2 && Cut(text, 1) == [REPLACEMENT] && Size(Once(1, text)) == 1 + 2 + Size(TRUNCATION_SUFFIX)
  {
    hide Encode, Cut;
    var text := "\U{00E9}";
    assert |EncodeChar(text[0])| == 2 && |EncodeChar(REPLACEMENT)| == 3;
    assert text[1..] == "" && [REPLACEMENT][1..] == "";
    CutStep(text, 1);
    CutStep("", 0);
    CutStep([REPLACEMENT], 0);
    EncodeAppend([REPLACEMENT], TRUNCATION_SUFFIX);
  }
}
