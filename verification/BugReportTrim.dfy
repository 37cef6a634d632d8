/** Trimming a text to its tail: the last lines that fit, below a line that says how many are gone. */
module TailTrim {
  import opened Collections
  import opened Decimals

  // ----- sizes in UTF-8

  function CharBytes(c: char): nat {
    if c as int < 0x80 then 1 else if c as int < 0x800 then 2 else if c as int < 0x10000 then 3 else 4
  }

  /** Buffer.byteLength(s, 'utf-8'), for well-formed text. */
  function ByteLength(s: string): nat {
    if s == [] then 0 else ByteLength(Front(s)) + CharBytes(Last(s))
  }

  // The encoding itself, as section 3 of RFC 3629 has it.

  function Utf8(c: char): (bytes: seq<nat>)
    ensures |bytes| == CharBytes(c)
    ensures forall i :: 0 <= i < |bytes| ==> bytes[i] < 0x100
  {
    var n := c as int;
    if n < 0x80 then [n]
    else if n < 0x800 then [0xC0 + n / 0x40, 0x80 + n % 0x40]
    else if n < 0x10000 then [0xE0 + n / 0x1000, 0x80 + n / 0x40 % 0x40, 0x80 + n % 0x40]
    else [0xF0 + n / 0x40000, 0x80 + n / 0x1000 % 0x40, 0x80 + n / 0x40 % 0x40, 0x80 + n % 0x40]
  }

  function Encode(s: string): seq<nat> {
    if s == [] then [] else Encode(Front(s)) + Utf8(Last(s))
  }

  /** The number that the bytes at the start of a sequence stand for, and how many they are. */
  function Decode(bytes: seq<nat>): (int, int)
    requires bytes != []
  {
    var at := (i: nat) => if i < |bytes| then bytes[i] as int - 0x80 else 0;
    if bytes[0] < 0x80 then (bytes[0] as int, 1)
    else if bytes[0] < 0xE0 then ((bytes[0] - 0xC0) * 0x40 + at(1), 2)
    else if bytes[0] < 0xF0 then ((bytes[0] - 0xE0) * 0x1000 + at(1) * 0x40 + at(2), 3)
    else ((bytes[0] - 0xF0) * 0x40000 + at(1) * 0x1000 + at(2) * 0x40 + at(3), 4)
  }

  /** Every character can be read back from its bytes, whatever follows. */
  lemma {:induction false} Utf8RoundTrip(c: char, rest: seq<nat>)
    ensures Decode(Utf8(c) + rest) == (c as int, CharBytes(c))
  {
    var n := c as int;
    Digits(n);
    assert n < 0x110000;
  }

  lemma {:induction false} Digits(n: nat)
    ensures n == n / 0x40 * 0x40 + n % 0x40
    ensures n == n / 0x1000 * 0x1000 + n / 0x40 % 0x40 * 0x40 + n % 0x40
    ensures n == n / 0x40000 * 0x40000 + n / 0x1000 % 0x40 * 0x1000 + n / 0x40 % 0x40 * 0x40 + n % 0x40
  {
    assert n / 0x40 / 0x40 == n / 0x1000;
    assert n / 0x1000 / 0x40 == n / 0x40000;
  }

  /** ByteLength is the length of the encoding. */
  lemma {:induction false} EncodedLength(s: string)
    ensures |Encode(s)| == ByteLength(s)
  {
    if s != [] {
      EncodedLength(Front(s));
    }
  }

  lemma {:induction false} BytesOfSum(a: string, b: string)
    ensures ByteLength(a + b) == ByteLength(a) + ByteLength(b)
  {
    if b == [] {
      assert a + b == a;
    } else {
      BytesOfSum(a, Front(b));
      assert Front(a + b) == a + Front(b);
    }
  }

  lemma {:induction false} AsciiBytes(s: string)
    requires forall i :: 0 <= i < |s| ==> s[i] as int < 0x80
    ensures ByteLength(s) == |s|
  {
    if s != [] {
      AsciiBytes(Front(s));
    }
  }

  lemma {:induction false} DecimalIsAscii(n: nat)
    ensures forall i :: 0 <= i < |Decimal(n)| ==> Decimal(n)[i] as int < 0x80
  {
    if n >= 10 {
      DecimalIsAscii(n / 10);
    }
  }

  // ----- lines

  /** One more character: a new line, or more of the last one. */
  function SplitStep(lines: seq<string>, c: char): (more: seq<string>)
    requires lines != []
    ensures more != []
  {
    if c == '\n' then lines + [""] else Front(lines) + [Last(lines) + [c]]
  }

  function Split(s: string): (lines: seq<string>)
    ensures lines != []
  {
    if s == [] then [""] else SplitStep(Split(Front(s)), Last(s))
  }

  function Join(lines: seq<string>): string {
    if lines == [] then ""
    else if |lines| == 1 then lines[0]
    else Join(Front(lines)) + ['\n'] + Last(lines)
  }

  lemma {:induction false} JoinSplit(s: string)
    ensures Join(Split(s)) == s
  {
    if s != [] {
      JoinSplit(Front(s));
      JoinStep(Split(Front(s)), Last(s));
      calc {
        Join(Split(s));
        Join(SplitStep(Split(Front(s)), Last(s)));
        Front(s) + [Last(s)];
        s;
      }
    }
  }

  lemma {:induction false} JoinStep(lines: seq<string>, c: char)
    requires lines != []
    ensures Join(SplitStep(lines, c)) == Join(lines) + [c]
  {
    if c == '\n' {
      assert Front(lines + [""]) == lines;
    } else {
      var last := Last(lines) + [c];
      assert Front(Front(lines) + [last]) == Front(lines);
      if |lines| > 1 {
        assert Join(Front(lines)) + ['\n'] + last == Join(Front(lines)) + ['\n'] + Last(lines) + [c];
      }
    }
  }

  lemma {:induction false} SplitSnoc(s: string, c: char)
    ensures Split(s + [c]) == SplitStep(Split(s), c)
  {
    assert Front(s + [c]) == s;
  }

  lemma {:induction false} SplitOfExtended(s: string, t: string)
    requires '\n' !in t
    ensures Split(s + t) == Front(Split(s)) + [Last(Split(s)) + t]
  {
    hide Split;
    var lines := Split(s);
    if t == [] {
      assert s + t == s && Last(lines) + t == Last(lines);
    } else {
      SplitOfExtended(s, Front(t));
      SplitSnoc(s + Front(t), Last(t));
      assert s + t == s + Front(t) + [Last(t)];
      assert Last(lines) + t == Last(lines) + Front(t) + [Last(t)];
    }
  }

  lemma {:induction false} SplitLine(line: string)
    requires '\n' !in line
    ensures Split(line) == [line]
  {
    assert Split("") == [""] && "" + line == line;
    SplitOfExtended("", line);
  }

  lemma {:induction false} SplitAfterBreak(text: string, line: string)
    requires '\n' !in line
    ensures Split(text + ['\n'] + line) == Split(text) + [line]
  {
    var head := text + ['\n'];
    assert Front(head) == text;
    assert Split(head) == SplitStep(Split(text), '\n') == Split(text) + [""];
    assert Front(Split(text) + [""]) == Split(text) && "" + line == line;
    SplitOfExtended(head, line);
  }

  /** Lines without line breaks come back from the text they make. */
  lemma {:induction false} SplitJoin(lines: seq<string>)
    requires lines != [] && forall i :: 0 <= i < |lines| ==> '\n' !in lines[i]
    ensures Split(Join(lines)) == lines
  {
    hide Split;
    if |lines| == 1 {
      SplitLine(lines[0]);
    } else {
      SplitJoin(Front(lines));
      SplitAfterBreak(Join(Front(lines)), Last(lines));
      assert lines == Front(lines) + [Last(lines)];
    }
  }

  /** The bytes of the lines, each with its line break. */
  function LinesSize(lines: seq<string>): nat {
    if lines == [] then 0 else ByteLength(lines[0]) + 1 + LinesSize(lines[1..])
  }

  lemma {:induction false} LinesSizeSnoc(lines: seq<string>, line: string)
    ensures LinesSize(lines + [line]) == LinesSize(lines) + ByteLength(line) + 1
  {
    if lines == [] {
      assert [line][1..] == [];
    } else {
      LinesSizeSnoc(lines[1..], line);
      assert (lines + [line])[1..] == lines[1..] + [line];
    }
  }

  lemma {:induction false} JoinSize(lines: seq<string>)
    requires lines != []
    ensures ByteLength(Join(lines)) == LinesSize(lines) - 1
  {
    if |lines| == 1 {
      assert lines[1..] == [];
    } else {
      var front := Front(lines);
      JoinSize(front);
      BytesOfSum(Join(front) + ['\n'], Last(lines));
      BytesOfSum(Join(front), ['\n']);
      assert Front(['\n']) == [];
      assert ByteLength(['\n']) == 1;
      LinesSizeSnoc(front, Last(lines));
      assert lines == front + [Last(lines)];
    }
  }

  // ----- the trimmed text

  const MARKER_RESERVE := 80.0

  function Available(maxBytes: real): (a: real)
    ensures a >= 0.0 && a >= maxBytes - MARKER_RESERVE
  {
    if maxBytes - MARKER_RESERVE > 0.0 then maxBytes - MARKER_RESERVE else 0.0
  }

  /** The longest suffix of the lines that fits. */
  function Kept(lines: seq<string>, available: real): seq<string> {
    if lines == [] || LinesSize(lines) as real <= available then lines else Kept(lines[1..], available)
  }

  function Marker(removed: nat): string {
    "[TRIMMED: removed " + Decimal(removed) + " lines to fit size limit]"
  }

  function Trimmed(content: string, maxBytes: real): string {
    if ByteLength(content) as real <= maxBytes then content
    else
      var lines := Split(content);
      var kept := Kept(lines, Available(maxBytes));
      Marker(if |kept| <= |lines| then |lines| - |kept| else 0) + ['\n'] + Join(kept)
  }

  /** Kept is a suffix that fits, and every longer suffix is too big. */
  lemma {:induction false} KeptIsTheLongestSuffix(lines: seq<string>, available: real)
    requires available >= 0.0
    ensures var kept := Kept(lines, available);
            && |kept| <= |lines| && kept == lines[|lines| - |kept|..]
            && LinesSize(kept) as real <= available
            && forall k :: 0 <= k < |lines| - |kept| ==> LinesSize(lines[k..]) as real > available
  {
    if lines != [] && LinesSize(lines) as real > available {
      KeptIsTheLongestSuffix(lines[1..], available);
      var kept := Kept(lines, available);
      assert lines[1..][|lines| - 1 - |kept|..] == lines[|lines| - |kept|..];
      forall k | 0 <= k < |lines| - |kept| ensures LinesSize(lines[k..]) as real > available {
        if k == 0 {
          assert lines[0..] == lines;
        } else {
          assert lines[k..] == lines[1..][k - 1..];
        }
      }
    } else {
      assert lines[0..] == lines;
    }
  }

  lemma {:induction false} SuffixesGrow(lines: seq<string>, i: nat, j: nat)
    requires i <= j <= |lines|
    ensures LinesSize(lines[i..]) >= LinesSize(lines[j..])
    decreases j - i
  {
    if i < j {
      assert lines[i..][1..] == lines[i + 1..];
      SuffixesGrow(lines, i + 1, j);
    }
  }

  lemma {:induction false} KeptIs(lines: seq<string>, available: real, k: nat)
    requires k <= |lines| && LinesSize(lines[k..]) as real <= available
    requires k > 0 ==> LinesSize(lines[k - 1..]) as real > available
    ensures Kept(lines, available) == lines[k..]
  {
    if k == 0 {
      assert lines[0..] == lines;
    } else {
      SuffixesGrow(lines, 0, k - 1);
      assert lines[0..] == lines;
      assert lines[1..][k - 1..] == lines[k..];
      assert k > 1 ==> lines[1..][k - 2..] == lines[k - 1..];
      KeptIs(lines[1..], available, k - 1);
    }
  }

  /** A text that is too big never keeps all its lines, whatever the limit. */
  lemma {:induction false} SomethingIsRemoved(content: string, maxBytes: real)
    requires ByteLength(content) as real > maxBytes
    ensures |Kept(Split(content), Available(maxBytes))| < |Split(content)|
  {
    var lines := Split(content);
    JoinSplit(content);
    JoinSize(lines);
    assert LinesSize(lines) as real > Available(maxBytes);
    KeptIsTheLongestSuffix(lines[1..], Available(maxBytes));
  }

  lemma {:induction false} MarkerHead()
    ensures ByteLength("[TRIMMED: removed ") == 18
  {
    AsciiBytes("[TRIMMED: removed ");
  }

  lemma {:induction false} MarkerTail()
    ensures ByteLength(" lines to fit size limit]") == 25
  {
    AsciiBytes(" lines to fit size limit]");
  }

  lemma {:induction false} LineBreak()
    ensures ByteLength(['\n']) == 1
  {
    AsciiBytes(['\n']);
  }

  lemma {:induction false} MarkerSize(removed: nat)
    ensures ByteLength(Marker(removed) + ['\n']) == 44 + |Decimal(removed)|
  {
    MarkerHead();
    MarkerTail();
    LineBreak();
    DecimalIsAscii(removed);
    AsciiBytes(Decimal(removed));
    FourParts("[TRIMMED: removed ", Decimal(removed), " lines to fit size limit]", ['\n']);
  }

  lemma {:induction false} FourParts(a: string, b: string, c: string, d: string)
    ensures ByteLength(a + b + c + d) == ByteLength(a) + ByteLength(b) + ByteLength(c) + ByteLength(d)
  {
    BytesOfSum(a + b + c, d);
    BytesOfSum(a + b, c);
    BytesOfSum(a, b);
  }

  /** The exact size of a text that was trimmed. */
  lemma {:induction false} TrimmedBytes(content: string, maxBytes: real)
    requires ByteLength(content) as real > maxBytes
    ensures var lines := Split(content);
            var kept := Kept(lines, Available(maxBytes));
            && |kept| < |lines|
            && ByteLength(Trimmed(content, maxBytes)) ==
               44 + |Decimal(|lines| - |kept|)| + (if kept == [] then 0 else LinesSize(kept) - 1)
  {
    var lines := Split(content);
    var kept := Kept(lines, Available(maxBytes));
    SomethingIsRemoved(content, maxBytes);
    var removed := |lines| - |kept|;
    MarkerSize(removed);
    BytesOfSum(Marker(removed) + ['\n'], Join(kept));
    if kept != [] {
      JoinSize(kept);
    }
  }

  /** The trimmed text exceeds what is available by its marker at most. */
  lemma {:induction false} TrimmedExceeds(content: string, maxBytes: real)
    requires ByteLength(content) as real > maxBytes
    ensures var removed := |Split(content)| - |Kept(Split(content), Available(maxBytes))|;
            && 0 < removed <= |Split(content)|
            && ByteLength(Trimmed(content, maxBytes)) as real
               <= Available(maxBytes) + 44.0 + |Decimal(removed)| as real
  {
    TrimmedBytes(content, maxBytes);
    KeptIsTheLongestSuffix(Split(content), Available(maxBytes));
  }

  /** A text of fewer than 10^36 lines ends up within the limit, or within the 80 bytes of the marker. */
  lemma {:induction false} TrimmedFits(content: string, maxBytes: real)
    requires |Split(content)| < Power10(36)
    ensures var limit := if maxBytes > MARKER_RESERVE then maxBytes else MARKER_RESERVE;
            ByteLength(Trimmed(content, maxBytes)) as real <= limit
  {
    hide ByteLength, Split, Kept, Decimal;
    if ByteLength(content) as real > maxBytes {
      TrimmedExceeds(content, maxBytes);
      var removed := |Split(content)| - |Kept(Split(content), Available(maxBytes))|;
      assert |Decimal(removed)| <= 36 by { DecimalLength(removed, 36); }
    }
  }

  /** Trimming to a limit of at least 80 bytes a second time changes nothing. */
  lemma {:induction false} TrimmingIsIdempotent(content: string, maxBytes: real)
    requires |Split(content)| < Power10(36) && maxBytes >= MARKER_RESERVE
    ensures Trimmed(Trimmed(content, maxBytes), maxBytes) == Trimmed(content, maxBytes)
  {
    TrimmedFits(content, maxBytes);
  }

  method TrimToTail(content: string, maxBytes: real) returns (r: string)
    ensures r == Trimmed(content, maxBytes)
  {
    if ByteLength(content) as real <= maxBytes {
      return content;
    }
    var lines := Split(content);
    var keptLines: seq<string> := [];
    var currentBytes := 0;
    var availableBytes := Available(maxBytes);
    var i := |lines|;
    while i > 0
      invariant 0 <= i <= |lines| && keptLines == lines[i..]
      invariant currentBytes == LinesSize(keptLines) && currentBytes as real <= availableBytes
    {
      var lineBytes := ByteLength(lines[i - 1]) + 1;
      assert lines[i - 1..] == [lines[i - 1]] + lines[i..] && lines[i - 1..][1..] == lines[i..];
      assert LinesSize(lines[i - 1..]) == currentBytes + lineBytes;
      if (currentBytes + lineBytes) as real > availableBytes {
        break;
      }
      keptLines := [lines[i - 1]] + keptLines;
      currentBytes := currentBytes + lineBytes;
      i := i - 1;
    }
    KeptIs(lines, availableBytes, i);
    SomethingIsRemoved(content, maxBytes);
    var trimmedLineCount := |lines| - |keptLines|;
    if trimmedLineCount == 0 {
      assert false;
    }
    r := Marker(trimmedLineCount) + ['\n'] + Join(keptLines);
  }
}
