/** The text of an OBJ file as the loader sees it, and the forward-only line reader over it.

    The file is read into a zero-filled buffer one byte longer than the file, so every
    routine that scans past the end of a line meets a NUL byte at offset |text| at the
    latest. `At` is that buffer; reading beyond it is excluded by the preconditions. */
module ObjText {

  /** A C `char` read from the file: one byte. */
  type Char8 = c: char | c as int < 0x100

  const NUL: Char8 := '\0'

  /** The value MSVC gives the two-character literal '\r\n'. */
  const CRLF_LITERAL: int := 0x0D0A

  /** `c == '\r\n'` in the source: the byte is promoted to int and compared with the
      two-character literal, a value no single byte has. */
  function EqualsCrLfLiteral(c: Char8): (r: bool)
    ensures !r
  {
    c as int == CRLF_LITERAL
  }

  /** The byte at offset `i` of the buffer holding `text`: the text, then the sentinel NUL. */
  function At(text: seq<Char8>, i: nat): Char8
    requires i <= |text|
  {
    if i < |text| then text[i] else NUL
  }

  /** A window into the buffer: an offset and a length (the source's pointer and size_t). */
  datatype StringView = StringView(start: nat, len: nat)

  /** The bytes a view covers. */
  function Content(text: seq<Char8>, v: StringView): seq<Char8>
    requires v.start + v.len <= |text|
  {
    text[v.start..v.start + v.len]
  }

  /** The length of the line ReadLine cuts at `pos`: up to and including the first '\n',
      stopping before a NUL byte and at the end of the text. */
  function LineLen(text: seq<Char8>, pos: nat): (n: nat)
    requires pos <= |text|
    ensures pos + n <= |text|
    ensures n == 0 <==> pos == |text| || text[pos] == NUL
    decreases |text| - pos
  {
    if pos == |text| || text[pos] == NUL then 0
    else if text[pos] == '\n' || EqualsCrLfLiteral(text[pos]) then 1
    else 1 + LineLen(text, pos + 1)
  }

  /** The shape of a line: it holds no NUL byte, a '\n' can only be its last byte, and a line
      that does not end in '\n' runs to the end of the text or to a NUL byte. */
  lemma {:induction false} LineShape(text: seq<Char8>, pos: nat)
    requires pos <= |text|
    ensures forall k :: pos <= k < pos + LineLen(text, pos) ==> text[k] != NUL
    ensures forall k :: pos <= k < pos + LineLen(text, pos) - 1 ==> text[k] != '\n'
    ensures LineLen(text, pos) > 0 && text[pos + LineLen(text, pos) - 1] != '\n' ==>
              pos + LineLen(text, pos) == |text| || text[pos + LineLen(text, pos)] == NUL
    decreases |text| - pos
  {
    if pos < |text| && text[pos] != NUL && text[pos] != '\n' {
      LineShape(text, pos + 1);
    }
  }

  /** A line of `n` bytes: no NUL and no '\n' before its last byte, which is the '\n'. */
  lemma {:induction false} LineLenOfLine(text: seq<Char8>, pos: nat, n: nat)
    requires 0 < n && pos + n <= |text|
    requires forall k :: pos <= k < pos + n - 1 ==> text[k] != NUL && text[k] != '\n'
    requires text[pos + n - 1] == '\n'
    ensures LineLen(text, pos) == n
    decreases n
  {
    if n > 1 {
      LineLenOfLine(text, pos + 1, n - 1);
    }
  }

  /** `v` is a line the reader returns when its cursor stands at `v.start`. */
  ghost predicate IsLine(text: seq<Char8>, v: StringView) {
    v.start <= |text| && v.len == LineLen(text, v.start)
  }

  /** The lines a reader whose cursor is at `pos` returns before its first empty view. */
  function LinesFrom(text: seq<Char8>, pos: nat): seq<StringView>
    requires pos <= |text|
    decreases |text| - pos
  {
    var n := LineLen(text, pos);
    if n == 0 then [] else [StringView(pos, n)] + LinesFrom(text, pos + n)
  }

  /** Each of those lines is what ReadLine returns at its start, and none is empty. */
  lemma {:induction false} LinesFromAreLines(text: seq<Char8>, pos: nat)
    requires pos <= |text|
    ensures forall i :: 0 <= i < |LinesFrom(text, pos)| ==>
              IsLine(text, LinesFrom(text, pos)[i]) && LinesFrom(text, pos)[i].len > 0
              && pos <= LinesFrom(text, pos)[i].start < |text|
    decreases |text| - pos
  {
    var n := LineLen(text, pos);
    if n > 0 {
      LinesFromAreLines(text, pos + n);
      var lines := LinesFrom(text, pos);
      forall i | 0 <= i < |lines|
        ensures IsLine(text, lines[i]) && lines[i].len > 0 && pos <= lines[i].start < |text|
      {
        if i > 0 {
          assert lines[i] == LinesFrom(text, pos + n)[i - 1];
        }
      }
    }
  }

  /** Every line of the text, in file order, as both passes of the loader see them. */
  function Lines(text: seq<Char8>): seq<StringView> {
    LinesFrom(text, 0)
  }

  /** The offset of the first NUL byte at or after `pos`, or the end of the text. */
  function NulFrom(text: seq<Char8>, pos: nat): (q: nat)
    requires pos <= |text|
    ensures pos <= q <= |text|
    ensures q < |text| ==> text[q] == NUL
    decreases |text| - pos
  {
    if pos == |text| || text[pos] == NUL then pos else NulFrom(text, pos + 1)
  }

  /** No NUL byte lies between `pos` and `NulFrom(text, pos)`: it is the first one. */
  lemma {:induction false} NulFromIsFirst(text: seq<Char8>, pos: nat)
    requires pos <= |text|
    ensures forall k :: pos <= k < NulFrom(text, pos) ==> text[k] != NUL
    decreases |text| - pos
  {
    if pos < |text| && text[pos] != NUL {
      NulFromIsFirst(text, pos + 1);
    }
  }

  /** The bytes of a run of lines, concatenated. A view reaching past the text (which the
      reader never returns) contributes nothing. */
  function Join(text: seq<Char8>, lines: seq<StringView>): seq<Char8> {
    if lines == [] then []
    else (if lines[0].start + lines[0].len <= |text| then Content(text, lines[0]) else [])
         + Join(text, lines[1..])
  }

  /** A line holds no NUL byte, so the first NUL after it is the first NUL from its start. */
  lemma {:induction false} LineNulFree(text: seq<Char8>, pos: nat)
    requires pos <= |text|
    ensures NulFrom(text, pos) == NulFrom(text, pos + LineLen(text, pos))
    decreases |text| - pos
  {
    if pos < |text| && text[pos] != NUL && text[pos] != '\n' {
      LineNulFree(text, pos + 1);
    }
  }

  /** The lines the reader returns from `pos` put back together give the rest of the text up
      to its first NUL byte: nothing is dropped, repeated or reordered. */
  lemma {:induction false} LinesFromJoin(text: seq<Char8>, pos: nat)
    requires pos <= |text|
    ensures Join(text, LinesFrom(text, pos)) == text[pos..NulFrom(text, pos)]
    decreases |text| - pos
  {
    var n := LineLen(text, pos);
    if n > 0 {
      var rest := LinesFrom(text, pos + n);
      var q := NulFrom(text, pos + n);
      LinesFromJoin(text, pos + n);
      LineNulFree(text, pos);
      assert LinesFrom(text, pos) == [StringView(pos, n)] + rest;
      assert ([StringView(pos, n)] + rest)[1..] == rest;
      SliceSplit(text, pos, pos + n, q);
      calc {
        Join(text, LinesFrom(text, pos));
        text[pos..pos + n] + Join(text, rest);
        text[pos..pos + n] + text[pos + n..q];
        text[pos..q];
      }
    } else {
      assert LinesFrom(text, pos) == [] && NulFrom(text, pos) == pos;
    }
  }

  lemma SliceSplit(s: seq<Char8>, a: nat, b: nat, c: nat)
    requires a <= b <= c <= |s|
    ensures s[a..b] + s[b..c] == s[a..c]
  {
  }

  /** Successive lines concatenate back to the text up to its first NUL byte. */
  lemma LinesJoin(text: seq<Char8>)
    ensures Join(text, Lines(text)) == text[..NulFrom(text, 0)]
  {
    LinesFromJoin(text, 0);
  }

  /** The forward-only cursor over the text. */
  class StringReader {
    /** The text the reader walks (the source's `string` view over the whole buffer). */
    const text: seq<Char8>
    /** The offset of the next line. */
    var pos: nat

    ghost predicate Valid()
      reads this
    {
      pos <= |text|
    }

    constructor (text: seq<Char8>)
      ensures Valid() && this.text == text && pos == 0
    {
      this.text := text;
      pos := 0;
    }

    /** Returns the next line, including its '\n', and moves the cursor past it. At the end of
        the text, or on a NUL byte, it returns an empty view and leaves the cursor where it is. */
    method ReadLine() returns (line: StringView)
      requires Valid()
      modifies this
      ensures Valid()
      ensures line == StringView(old(pos), LineLen(text, old(pos)))
      ensures pos == old(pos) + line.len
      ensures old(pos) == |text| ==> line.len == 0 && pos == old(pos)
    {
      if pos == |text| {
        // The source returns a view with a null start here; no caller reads through it.
        return StringView(pos, 0);
      }
      var start := pos;
      var len := 0;
      while pos + len < |text| && text[pos + len] != NUL
        invariant pos + len <= |text|
        invariant LineLen(text, start) == len + LineLen(text, start + len)
      {
        var c := text[pos + len];
        len := len + 1;
        if c == '\n' || EqualsCrLfLiteral(c) {
          break;
        }
      }
      pos := pos + len;
      line := StringView(start, len);
    }
  }
}
