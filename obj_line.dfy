/** Per-line routines of the OBJ loader: the classifier, the keyword skipper, the count of
    index fields per face corner, the face-index parser and the float-vector readers. */
module ObjLine {
  import opened ObjText

  /** The kinds of line the loader tells apart. */
  datatype ObjLineType = Comment | Vertex | TexCoord | Normal | Face | Unknown

  /** Classifies a line by its first two bytes: each kind is characterized by them. The
      second byte is read even for a line of one byte; the sentinel NUL makes that read safe
      at the end of the text. */
  function GetObjLineType(text: seq<Char8>, line: StringView): (t: ObjLineType)
    requires line.start < |text|
    ensures t == Comment <==> text[line.start] == '#'
    ensures t == Face <==> text[line.start] == 'f'
    ensures t == Vertex <==> text[line.start] == 'v' && At(text, line.start + 1) == ' '
    ensures t == TexCoord <==> text[line.start] == 'v' && At(text, line.start + 1) == 't'
    ensures t == Normal <==>
              text[line.start] == 'v' && At(text, line.start + 1) != ' ' && At(text, line.start + 1) != 't'
    ensures t == Unknown <==> text[line.start] !in {'#', 'v', 'f'}
  {
    var c0 := text[line.start];
    var c1 := At(text, line.start + 1);
    match c0
    case '#' => Comment
    case 'v' => if c1 == ' ' then Vertex else if c1 == 't' then TexCoord else Normal
    case 'f' => Face
    case _ => Unknown
  }

  /** The classes of byte the loader's scanning loops step over. */
  datatype ByteClass = LineStart | WhiteSpace | Digit | IndexSeparator

  predicate InClass(c: Char8, cls: ByteClass) {
    match cls
    case LineStart => IsLineStartChar(c)
    case WhiteSpace => IsSpace(c)
    case Digit => IsDigit(c)
    case IndexSeparator => IsIndexSeparator(c)
  }

  /** The length of the run of bytes of class `cls` from `p` on. No class holds NUL, so the
      sentinel ends every run and the scan never leaves the buffer. */
  function RunLen(text: seq<Char8>, p: nat, cls: ByteClass): (n: nat)
    requires p <= |text|
    ensures p + n <= |text|
    ensures !InClass(At(text, p + n), cls)
    decreases |text| - p
  {
    if InClass(At(text, p), cls) then 1 + RunLen(text, p + 1, cls) else 0
  }

  /** The bytes SkipObjLineStart steps over: the keyword letters and spaces. */
  predicate IsLineStartChar(c: Char8) {
    c == 'v' || c == 't' || c == 'n' || c == 'f' || c == ' '
  }

  /** Where the payload of a line begins, after its keyword and the spaces that follow it. */
  function BodyStart(text: seq<Char8>, line: StringView): nat
    requires line.start <= |text|
  {
    line.start + RunLen(text, line.start, LineStart)
  }

  /** The keyword skip keeps to its line: every byte it steps over is one of `v t n f ' '`,
      the first byte it leaves is not, and it stops before the end of the line. */
  lemma {:induction false} BodyStartSkips(text: seq<Char8>, p: nat)
    requires p <= |text|
    ensures p + RunLen(text, p, LineStart) <= p + LineLen(text, p)
    ensures forall k :: p <= k < p + RunLen(text, p, LineStart) ==> IsLineStartChar(text[k])
    ensures !IsLineStartChar(At(text, p + RunLen(text, p, LineStart)))
    decreases |text| - p
  {
    if IsLineStartChar(At(text, p)) {
      BodyStartSkips(text, p + 1);
    }
  }

  /** Strips the keyword and the spaces after it: the result is the suffix of the line that
      starts at the payload (`BodyStartSkips` says what was skipped). */
  method SkipObjLineStart(text: seq<Char8>, line: StringView) returns (rest: StringView)
    requires IsLine(text, line)
    ensures rest.start == BodyStart(text, line)
    ensures line.start <= rest.start && rest.start + rest.len == line.start + line.len
  {
    BodyStartSkips(text, line.start);
    var offset := 0;
    while IsLineStartChar(At(text, line.start + offset))
      invariant line.start + offset <= |text|
      invariant RunLen(text, line.start, LineStart)
                == offset + RunLen(text, line.start + offset, LineStart)
      decreases |text| - offset
    {
      offset := offset + 1;
    }
    rest := StringView(line.start + offset, line.len - offset);
  }

  /** Some space byte lies at or after `p`. */
  ghost predicate HasSpaceFrom(text: seq<Char8>, p: nat) {
    exists k :: p <= k < |text| && text[k] == ' '
  }

  /** The first space at or after `p`. */
  function FirstSpace(text: seq<Char8>, p: nat): (q: nat)
    requires p <= |text| && HasSpaceFrom(text, p)
    ensures p <= q < |text| && text[q] == ' '
    decreases |text| - p
  {
    if text[p] == ' ' then p else FirstSpace(text, p + 1)
  }

  /** No space lies between `p` and `FirstSpace(text, p)`. */
  lemma {:induction false} FirstSpaceIsFirst(text: seq<Char8>, p: nat)
    requires p <= |text| && HasSpaceFrom(text, p)
    ensures forall k :: p <= k < FirstSpace(text, p) ==> text[k] != ' '
    decreases |text| - p
  {
    if text[p] != ' ' {
      var k :| p <= k < |text| && text[k] == ' ';
      assert HasSpaceFrom(text, p + 1) by {
        assert p + 1 <= k;
      }
      FirstSpaceIsFirst(text, p + 1);
    }
  }

  /** The number of times `c` occurs in `s`. */
  function CountChar(s: seq<Char8>, c: Char8): nat {
    if s == [] then 0 else CountChar(s[..|s| - 1], c) + (if s[|s| - 1] == c then 1 else 0)
  }

  /** The number of bytes `c` in `text[lo..hi]`, counted by offset. */
  function CountCharBetween(text: seq<Char8>, lo: nat, hi: nat, c: Char8): (n: nat)
    requires lo <= hi <= |text|
    ensures n <= hi - lo
    decreases hi - lo
  {
    if lo == hi then 0 else CountCharBetween(text, lo, hi - 1, c) + (if text[hi - 1] == c then 1 else 0)
  }

  /** Counting by offset agrees with counting in the slice. */
  lemma {:induction false} CountCharBetweenSlice(text: seq<Char8>, lo: nat, hi: nat, c: Char8)
    requires lo <= hi <= |text|
    ensures CountCharBetween(text, lo, hi, c) == CountChar(text[lo..hi], c)
    decreases hi - lo
  {
    if lo < hi {
      CountCharBetweenSlice(text, lo, hi - 1, c);
      assert text[lo..hi][..hi - 1 - lo] == text[lo..hi - 1];
    }
  }

  /** The bytes from the payload start up to the first space: the first corner group of a
      face line when that space is inside the line. */
  function FirstCornerGroup(text: seq<Char8>, line: StringView): seq<Char8>
    requires line.start <= |text| && HasSpaceFrom(text, BodyStart(text, line))
  {
    var p := BodyStart(text, line);
    text[p..FirstSpace(text, p)]
  }

  /** The first corner group holds no space, and a space follows it in the text. */
  lemma FirstCornerGroupShape(text: seq<Char8>, line: StringView)
    requires line.start <= |text| && HasSpaceFrom(text, BodyStart(text, line))
    ensures var g := FirstCornerGroup(text, line);
            && ' ' !in g
            && BodyStart(text, line) + |g| < |text| && text[BodyStart(text, line) + |g|] == ' '
  {
    FirstSpaceIsFirst(text, BodyStart(text, line));
  }

  /** The number of slashes in the first corner group, counted by offset. */
  function FirstCornerSlashes(text: seq<Char8>, line: StringView): nat
    requires line.start <= |text| && HasSpaceFrom(text, BodyStart(text, line))
  {
    var p := BodyStart(text, line);
    CountCharBetween(text, p, FirstSpace(text, p), '/')
  }

  /** The offset count of the first corner group's slashes is the count of '/' in its bytes. */
  lemma FirstCornerSlashesCount(text: seq<Char8>, line: StringView)
    requires line.start <= |text| && HasSpaceFrom(text, BodyStart(text, line))
    ensures FirstCornerSlashes(text, line) == CountChar(FirstCornerGroup(text, line), '/')
  {
    var p := BodyStart(text, line);
    CountCharBetweenSlice(text, p, FirstSpace(text, p), '/');
  }

  /** Counts the index fields of the first corner group: one more than its slashes. The scan
      has no length bound and stops only at a space, so a space must follow the payload start
      somewhere in the text. */
  method GetIndicesPerVertexCountFromObjLine(text: seq<Char8>, line: StringView) returns (count: int)
    requires IsLine(text, line)
    requires HasSpaceFrom(text, BodyStart(text, line))
    ensures count == 1 + FirstCornerSlashes(text, line)
  {
    var body := SkipObjLineStart(text, line);
    var p := body.start;
    var q := FirstSpace(text, p);
    FirstSpaceIsFirst(text, p);
    count := 1;
    var i := 0;
    while At(text, p + i) != ' '
      invariant p + i <= q
      invariant count == 1 + CountCharBetween(text, p, p + i, '/')
      decreases q - (p + i)
    {
      var c := text[p + i];
      if c == '/' {
        count := count + 1;
      }
      i := i + 1;
    }
  }

  // ---------------------------------------------------------------------------------------
  // strtol(s, &end, 10), as used by GetIndicesFromObjLine

  /** `isspace` in the C locale: ' ' and '\t', '\n', '\v', '\f', '\r'. */
  predicate IsSpace(c: Char8) {
    c == ' ' || 0x09 <= c as int <= 0x0D
  }

  predicate IsDigit(c: Char8) {
    '0' <= c <= '9'
  }

  const LONG_MIN: int := -0x8000_0000
  const LONG_MAX: int := 0x7FFF_FFFF

  /** strtol saturates at the bounds of `long`, which is 32 bits wide on Windows. */
  function ClampLong(v: int): (r: int)
    ensures LONG_MIN <= r <= LONG_MAX
    ensures LONG_MIN <= v <= LONG_MAX ==> r == v
  {
    if v < LONG_MIN then LONG_MIN else if v > LONG_MAX then LONG_MAX else v
  }

  /** The value of the decimal digits from `p` on, accumulated onto `acc` the way strtol
      does: each digit multiplies what was read so far by ten and adds itself. */
  function DigitsValue(text: seq<Char8>, p: nat, acc: nat): nat
    requires p <= |text|
    decreases |text| - p
  {
    if IsDigit(At(text, p)) then DigitsValue(text, p + 1, 10 * acc + DigitValue(text[p]))
    else acc
  }

  /** The value of a decimal digit byte. */
  function DigitValue(c: Char8): nat {
    if IsDigit(c) then c as int - '0' as int else 0
  }

  /** Where the digits begin once an optional sign at `q` is stepped over. */
  function AfterSign(text: seq<Char8>, q: nat): (d: nat)
    requires q <= |text|
    ensures q <= d <= |text|
  {
    if At(text, q) == '-' || At(text, q) == '+' then q + 1 else q
  }

  /** What strtol returns and where it leaves its end pointer. */
  datatype Conversion = Conversion(value: int, end: nat)

  /** Where strtol leaves its end pointer: past the leading white space, an optional sign
      and the decimal digits, or back at `p` when no digit follows them. */
  function StrtolEnd(text: seq<Char8>, p: nat): (e: nat)
    requires p <= |text|
    ensures e <= |text|
    ensures e != p ==> p < e && !IsDigit(At(text, e))
  {
    var q := p + RunLen(text, p, WhiteSpace);
    var d := AfterSign(text, q);
    var n := RunLen(text, d, Digit);
    if n == 0 then p else d + n
  }

  /** strtol in base 10: leading white space, an optional sign, then decimal digits. Without a
      digit nothing is converted: the value is 0 and the end pointer stays at `p`. */
  function Strtol(text: seq<Char8>, p: nat): (r: Conversion)
    requires p <= |text|
    ensures r.end == StrtolEnd(text, p)
    ensures LONG_MIN <= r.value <= LONG_MAX
    ensures r.end == p ==> r.value == 0
  {
    var q := p + RunLen(text, p, WhiteSpace);
    var d := AfterSign(text, q);
    var n := RunLen(text, d, Digit);
    if n == 0 then Conversion(0, p)
    else
      var magnitude: int := DigitsValue(text, d, 0);
      Conversion(ClampLong(if At(text, q) == '-' then -magnitude else magnitude), d + n)
  }

  // ---------------------------------------------------------------------------------------
  // Face lines

  /** The bytes GetIndicesFromObjLine skips between two numbers. */
  predicate IsIndexSeparator(c: Char8) {
    c == '/' || c == ' '
  }

  /** Where the parse goes on after the number that starts at `p` and the separators after it. */
  function NextToken(text: seq<Char8>, p: nat): (q: nat)
    requires p <= |text|
    ensures p <= q <= |text|
    ensures StrtolEnd(text, p) <= q
  {
    var e := StrtolEnd(text, p);
    e + RunLen(text, e, IndexSeparator)
  }

  /** The parse loop of GetIndicesFromObjLine, started at `p`, reaches a '\n' byte: each
      round moves the cursor, by converting a number or by skipping separators after a failed
      conversion. A round that does neither (a conversion failing on a byte other than '/',
      ' ' and '\n': the CR of a CR-LF line end, the NUL after a last line without '\n', a
      letter) repeats forever in the source. */
  ghost predicate FaceParses(text: seq<Char8>, p: nat)
    requires p <= |text|
    decreases |text| - p
  {
    if At(text, p) == '\n' || EqualsCrLfLiteral(At(text, p)) then true
    else NextToken(text, p) > p && FaceParses(text, NextToken(text, p))
  }

  /** The integers the parse loop stores from `p` on, in order, up to the '\n' that ends it:
      one per round, the 0 of a failed conversion included. Where a round does not move the
      cursor the source loop never ends; the list stops there. */
  ghost function FaceIndices(text: seq<Char8>, p: nat): seq<int>
    requires p <= |text|
    decreases |text| - p
  {
    if At(text, p) == '\n' || EqualsCrLfLiteral(At(text, p)) then []
    else if NextToken(text, p) == p then []
    else [Strtol(text, p).value] + FaceIndices(text, NextToken(text, p))
  }

  /** Every index the parse loop stores is a value strtol can return: a 32-bit `long`. */
  lemma {:induction false} FaceIndicesInLongRange(text: seq<Char8>, p: nat)
    requires p <= |text|
    ensures forall i :: 0 <= i < |FaceIndices(text, p)| ==> LONG_MIN <= FaceIndices(text, p)[i] <= LONG_MAX
    decreases |text| - p
  {
    if At(text, p) != '\n' && !EqualsCrLfLiteral(At(text, p)) && NextToken(text, p) != p {
      FaceIndicesInLongRange(text, NextToken(text, p));
    }
  }

  /** A face line whose parse loop terminates. */
  ghost predicate ParsableFace(text: seq<Char8>, line: StringView) {
    IsLine(text, line) && FaceParses(text, BodyStart(text, line))
  }

  /** The indices a face line contributes. */
  ghost function LineIndices(text: seq<Char8>, line: StringView): seq<int>
    requires line.start <= |text|
  {
    FaceIndices(text, BodyStart(text, line))
  }

  /** One round of the parse loop against the indices still to come: the number at `p` is the
      first of them, and the separator skip leaves the cursor on the rest. */
  lemma FaceRound(text: seq<Char8>, p: nat, rest: seq<int>)
    requires p <= |text| && FaceParses(text, p) && FaceIndices(text, p) == rest
    requires At(text, p) != '\n' && !EqualsCrLfLiteral(At(text, p))
    ensures p < NextToken(text, p) && Strtol(text, p).end <= NextToken(text, p)
    ensures FaceParses(text, NextToken(text, p))
    ensures rest != [] && rest[0] == Strtol(text, p).value
    ensures FaceIndices(text, NextToken(text, p)) == rest[1..]
  {
    assert rest == [Strtol(text, p).value] + FaceIndices(text, NextToken(text, p));
  }

  /** One round of the parse loop: converts the number at `p`, stores it at `w` and steps
      over the separators after it. */
  method ParseIndex(text: seq<Char8>, p: nat, indices: array<int>, w: nat) returns (q: nat)
    requires p <= |text| && w < indices.Length
    modifies indices
    ensures q == NextToken(text, p)
    ensures indices[w] == Strtol(text, p).value
    ensures forall i :: 0 <= i < indices.Length && i != w ==> indices[i] == old(indices[i])
  {
    var conversion := Strtol(text, p);
    indices[w] := conversion.value;
    var e := conversion.end;
    q := e;
    while At(text, q) == '/' || At(text, q) == ' '
      invariant e <= q <= |text|
      invariant RunLen(text, e, IndexSeparator) == (q - e) + RunLen(text, q, IndexSeparator)
      decreases |text| - q
    {
      q := q + 1;
    }
  }

  /** The parse loop of GetIndicesFromObjLine from `p` on: stores the integers it converts,
      left to right, from `writeIndex` on and returns the advanced write index; every other
      slot keeps its value. */
  method ParseIndices(text: seq<Char8>, p: nat, indices: array<int>, writeIndex: nat)
    returns (newWriteIndex: nat)
    requires p <= |text| && FaceParses(text, p)
    requires writeIndex + |FaceIndices(text, p)| <= indices.Length
    modifies indices
    ensures newWriteIndex == writeIndex + |FaceIndices(text, p)|
    ensures forall i :: writeIndex <= i < newWriteIndex ==> indices[i] == FaceIndices(text, p)[i - writeIndex]
    ensures forall i :: 0 <= i < indices.Length && !(writeIndex <= i < newWriteIndex) ==>
              indices[i] == old(indices[i])
  {
    var parseAt := p;
    ghost var all := FaceIndices(text, p);
    newWriteIndex := writeIndex;
    while At(text, parseAt) != '\n' && !EqualsCrLfLiteral(At(text, parseAt))
      invariant parseAt <= |text| && FaceParses(text, parseAt)
      invariant writeIndex <= newWriteIndex <= writeIndex + |all| <= indices.Length
      invariant FaceIndices(text, parseAt) == all[newWriteIndex - writeIndex..]
      invariant forall i :: writeIndex <= i < newWriteIndex ==> indices[i] == all[i - writeIndex]
      invariant forall i :: 0 <= i < indices.Length && !(writeIndex <= i < newWriteIndex) ==>
                  indices[i] == old(indices[i])
      decreases |text| - parseAt
    {
      FaceRound(text, parseAt, all[newWriteIndex - writeIndex..]);
      parseAt := ParseIndex(text, parseAt, indices, newWriteIndex);
      newWriteIndex := newWriteIndex + 1;
    }
  }

  /** Writes the face line's integers, left to right, into `indices` from `writeIndex` on and
      returns the advanced write index; every other slot keeps its value. */
  method GetIndicesFromObjLine(text: seq<Char8>, line: StringView, indices: array<int>, writeIndex: nat)
    returns (newWriteIndex: nat)
    requires ParsableFace(text, line)
    requires writeIndex + |LineIndices(text, line)| <= indices.Length
    modifies indices
    ensures newWriteIndex == writeIndex + |LineIndices(text, line)|
    ensures forall i :: writeIndex <= i < newWriteIndex ==> indices[i] == LineIndices(text, line)[i - writeIndex]
    ensures forall i :: 0 <= i < indices.Length && !(writeIndex <= i < newWriteIndex) ==>
              indices[i] == old(indices[i])
  {
    var body := SkipObjLineStart(text, line);
    newWriteIndex := ParseIndices(text, body.start, indices, writeIndex);
  }

  // ---------------------------------------------------------------------------------------
  // The integers of a face line, token by token

  /** A scan over a run of `n` bytes of class `cls` that ends on a byte outside the class
      covers exactly the run. */
  lemma {:induction false} RunLenOfRun(text: seq<Char8>, p: nat, n: nat, cls: ByteClass)
    requires p + n <= |text|
    requires forall k :: p <= k < p + n ==> InClass(text[k], cls)
    requires !InClass(At(text, p + n), cls)
    ensures RunLen(text, p, cls) == n
    decreases n
  {
    if n > 0 {
      RunLenOfRun(text, p + 1, n - 1, cls);
    }
  }

  /** The value of a run of decimal digits, most significant digit first. */
  function DecimalValue(digits: seq<Char8>): nat {
    if digits == [] then 0
    else 10 * DecimalValue(digits[..|digits| - 1]) + DigitValue(digits[|digits| - 1])
  }

  /** strtol's digit loop, started inside a run of digits `text[d..e]` with the value of the
      digits before it, ends with the value of the whole run. */
  lemma {:induction false} DigitsValueOfRun(text: seq<Char8>, d: nat, p: nat, e: nat)
    requires d <= p <= e <= |text|
    requires forall k :: d <= k < e ==> IsDigit(text[k])
    requires !IsDigit(At(text, e))
    ensures DigitsValue(text, p, DecimalValue(text[d..p])) == DecimalValue(text[d..e])
    decreases e - p
  {
    if p < e {
      assert text[d..p + 1][..p - d] == text[d..p];
      assert DecimalValue(text[d..p + 1]) == 10 * DecimalValue(text[d..p]) + DigitValue(text[p]);
      DigitsValueOfRun(text, d, p + 1, e);
    }
  }

  /** The sign strtol accepts in front of the digits. */
  datatype Sign = NoSign | Minus | Plus

  function SignBytes(sign: Sign): seq<Char8> {
    match sign
    case NoSign => []
    case Minus => ['-']
    case Plus => ['+']
  }

  /** One number of a face line's payload and the separators that follow it. */
  datatype IndexToken = IndexToken(sign: Sign, digits: seq<Char8>, separator: seq<Char8>)

  /** The integer strtol makes of a token: the value of its digits with its sign, saturated
      to a `long`. */
  function TokenValue(t: IndexToken): int {
    var magnitude: int := DecimalValue(t.digits);
    ClampLong(if t.sign == Minus then -magnitude else magnitude)
  }

  function TokenValues(tokens: seq<IndexToken>): (values: seq<int>)
    ensures |values| == |tokens|
  {
    if tokens == [] then [] else [TokenValue(tokens[0])] + TokenValues(tokens[1..])
  }

  /** The bytes of a token: its sign, its digits, its separators. */
  function TokenBytes(t: IndexToken): seq<Char8> {
    SignBytes(t.sign) + t.digits + t.separator
  }

  /** The bytes of a run of tokens. */
  function Render(tokens: seq<IndexToken>): seq<Char8> {
    if tokens == [] then [] else TokenBytes(tokens[0]) + Render(tokens[1..])
  }

  /** A token has at least one digit, and its separator holds only '/' and ' ' bytes. */
  ghost predicate WellFormedToken(t: IndexToken) {
    && |t.digits| > 0
    && (forall k :: 0 <= k < |t.digits| ==> IsDigit(t.digits[k]))
    && (forall k :: 0 <= k < |t.separator| ==> IsIndexSeparator(t.separator[k]))
  }

  /** Every token is well formed, and only the last one may have no separator. */
  ghost predicate WellFormedTokens(tokens: seq<IndexToken>) {
    tokens == [] ||
    (&& WellFormedToken(tokens[0])
     && (|tokens| > 1 ==> |tokens[0].separator| > 0)
     && WellFormedTokens(tokens[1..]))
  }

  /** `s` lies in `text` at offset `p`. */
  ghost predicate OccursAt(text: seq<Char8>, p: nat, s: seq<Char8>) {
    p + |s| <= |text| && text[p..p + |s|] == s
  }

  /** The tokens lie in `text` from `p` on, and the '\n' that ends the line follows them. */
  ghost predicate PayloadAt(text: seq<Char8>, p: nat, tokens: seq<IndexToken>) {
    OccursAt(text, p, Render(tokens)) && At(text, p + |Render(tokens)|) == '\n'
  }

  lemma OccursAtSplit(text: seq<Char8>, p: nat, a: seq<Char8>, b: seq<Char8>)
    requires OccursAt(text, p, a + b)
    ensures OccursAt(text, p, a) && OccursAt(text, p + |a|, b)
  {
    assert text[p..p + |a|] == text[p..p + |a + b|][..|a|];
    assert text[p + |a|..p + |a| + |b|] == text[p..p + |a + b|][|a|..];
  }

  /** `OccursAtSplit` for a payload followed by the '\n' that ends its line. */
  lemma OccursAtSplitLine(text: seq<Char8>, p: nat, a: seq<Char8>, b: seq<Char8>)
    requires OccursAt(text, p, a + b) && At(text, p + |a + b|) == '\n'
    ensures OccursAt(text, p, a) && OccursAt(text, p + |a|, b)
    ensures At(text, p + |a| + |b|) == '\n'
  {
    OccursAtSplit(text, p, a, b);
  }

  /** strtol's digit loop over a run of digits that ends on a non-digit: it covers the run
      and accumulates the run's value. */
  lemma DigitRun(text: seq<Char8>, d: nat, digits: seq<Char8>)
    requires OccursAt(text, d, digits)
    requires forall k :: 0 <= k < |digits| ==> IsDigit(digits[k])
    requires !IsDigit(At(text, d + |digits|))
    ensures RunLen(text, d, Digit) == |digits|
    ensures DigitsValue(text, d, 0) == DecimalValue(digits)
  {
    forall k | d <= k < d + |digits|
      ensures IsDigit(text[k])
    {
      assert text[k] == digits[k - d];
    }
    RunLenOfRun(text, d, |digits|, Digit);
    DigitsValueOfRun(text, d, d, d + |digits|);
    assert text[d..d] == [];
  }

  /** The separator skip over a run of '/' and ' ' that ends on another byte covers the run. */
  lemma SeparatorRun(text: seq<Char8>, e: nat, separator: seq<Char8>)
    requires OccursAt(text, e, separator)
    requires forall k :: 0 <= k < |separator| ==> IsIndexSeparator(separator[k])
    requires !IsIndexSeparator(At(text, e + |separator|))
    ensures RunLen(text, e, IndexSeparator) == |separator|
  {
    forall k | e <= k < e + |separator|
      ensures InClass(text[k], IndexSeparator)
    {
      assert text[k] == separator[k - e];
    }
    RunLenOfRun(text, e, |separator|, IndexSeparator);
  }

  /** A sign or a digit at `p`: strtol skips no white space there and reads the digits after
      the sign. */
  lemma SignedStart(text: seq<Char8>, p: nat, sign: Sign, digits: seq<Char8>)
    requires |digits| > 0 && IsDigit(digits[0])
    requires OccursAt(text, p, SignBytes(sign) + digits)
    ensures RunLen(text, p, WhiteSpace) == 0
    ensures AfterSign(text, p) == p + |SignBytes(sign)|
    ensures At(text, p) != '\n' && (At(text, p) == '-' <==> sign == Minus)
  {
    // Naming the first byte: without these asserts the proof fails on some solver seeds.
    assert text[p] == (SignBytes(sign) + digits)[0];
    if sign != NoSign {
      assert text[p] == SignBytes(sign)[0];
    }
  }

  /** strtol on a signed run of digits that ends on a non-digit: it converts the token's
      value and stops right after the digits. */
  lemma StrtolOfToken(text: seq<Char8>, p: nat, sign: Sign, digits: seq<Char8>)
    requires |digits| > 0 && forall k :: 0 <= k < |digits| ==> IsDigit(digits[k])
    requires OccursAt(text, p, SignBytes(sign) + digits)
    requires !IsDigit(At(text, p + |SignBytes(sign)| + |digits|))
    ensures At(text, p) != '\n'
    ensures Strtol(text, p) == Conversion(TokenValue(IndexToken(sign, digits, [])), p + |SignBytes(sign)| + |digits|)
  {
    var d := p + |SignBytes(sign)|;
    SignedStart(text, p, sign, digits);
    OccursAtSplit(text, p, SignBytes(sign), digits);
    DigitRun(text, d, digits);
  }

  /** One round of the parse loop on a token: strtol converts the token's value, and the
      separator skip stops right after its separators, given that neither run goes on into
      the bytes that follow. */
  lemma ConvertToken(text: seq<Char8>, p: nat, t: IndexToken)
    requires WellFormedToken(t)
    requires OccursAt(text, p, TokenBytes(t))
    requires !IsDigit(At(text, p + |SignBytes(t.sign)| + |t.digits|))
    requires !IsIndexSeparator(At(text, p + |TokenBytes(t)|))
    ensures At(text, p) != '\n'
    ensures Strtol(text, p).value == TokenValue(t)
    ensures NextToken(text, p) == p + |TokenBytes(t)|
  {
    var e := p + |SignBytes(t.sign)| + |t.digits|;
    TokenSeparators(text, p, t);
    StrtolOfToken(text, p, t.sign, t.digits);
    assert StrtolEnd(text, p) == Strtol(text, p).end == e;
  }

  /** The sign and digits of a token lie at its start, and the separator skip after its
      digits covers exactly its separators. */
  lemma TokenSeparators(text: seq<Char8>, p: nat, t: IndexToken)
    requires WellFormedToken(t) && OccursAt(text, p, TokenBytes(t))
    requires !IsIndexSeparator(At(text, p + |TokenBytes(t)|))
    ensures OccursAt(text, p, SignBytes(t.sign) + t.digits)
    ensures RunLen(text, p + |SignBytes(t.sign)| + |t.digits|, IndexSeparator) == |t.separator|
  {
    var e := p + |SignBytes(t.sign)| + |t.digits|;
    assert e + |t.separator| == p + |TokenBytes(t)|;
    OccursAtSplit(text, p, SignBytes(t.sign) + t.digits, t.separator);
    SeparatorRun(text, e, t.separator);
  }

  /** The first token of a payload that ends in '\n' lies at its start, and the rest of the
      payload, still followed by the '\n', lies just after it. */
  lemma TokenLayout(text: seq<Char8>, p: nat, tokens: seq<IndexToken>)
    requires tokens != [] && PayloadAt(text, p, tokens)
    ensures OccursAt(text, p, TokenBytes(tokens[0]))
    ensures PayloadAt(text, p + |TokenBytes(tokens[0])|, tokens[1..])
  {
    var head, rest := TokenBytes(tokens[0]), Render(tokens[1..]);
    assert Render(tokens) == head + rest;
    OccursAtSplitLine(text, p, head, rest);
  }

  /** A byte of a rendered payload: a sign, a digit or a separator, so never NUL or '\n'. */
  predicate IsPayloadByte(c: Char8) {
    c == '-' || c == '+' || IsDigit(c) || IsIndexSeparator(c)
  }

  /** A well-formed token starts with a sign or a digit: never a separator. */
  lemma TokenStart(t: IndexToken)
    requires WellFormedToken(t)
    ensures |TokenBytes(t)| > 0 && !IsIndexSeparator(TokenBytes(t)[0]) && IsPayloadByte(TokenBytes(t)[0])
  {
  }

  /** The digits of a token do not run on: a separator follows them, or, in a token without
      separators, the '\n' that ends the line. */
  lemma DigitsEnd(text: seq<Char8>, p: nat, t: IndexToken)
    requires WellFormedToken(t) && OccursAt(text, p, TokenBytes(t))
    requires |t.separator| > 0 || At(text, p + |TokenBytes(t)|) == '\n'
    ensures !IsDigit(At(text, p + |SignBytes(t.sign)| + |t.digits|))
  {
  }

  /** The separators of a token do not run on: the next token starts with a sign or a digit,
      and after the last token comes the '\n'. */
  lemma SeparatorsEnd(text: seq<Char8>, n: nat, rest: seq<IndexToken>)
    requires PayloadAt(text, n, rest)
    requires rest != [] ==> WellFormedToken(rest[0])
    ensures !IsIndexSeparator(At(text, n))
    ensures At(text, n) == '\n' || IsPayloadByte(At(text, n))
  {
  }

  /** A payload of signed digit runs, each followed by a run of '/' and ' ', ending in '\n':
      the parse loop ends on the '\n' and stores one integer per run, the run's value, in
      order. Repeated separators, as in `1//3`, count as one. */
  lemma {:induction false} FaceIndicesOfTokens(text: seq<Char8>, p: nat, tokens: seq<IndexToken>)
    requires WellFormedTokens(tokens) && PayloadAt(text, p, tokens)
    ensures FaceParses(text, p)
    ensures FaceIndices(text, p) == TokenValues(tokens)
    decreases |tokens|
  {
    if tokens != [] {
      var t, rest := tokens[0], tokens[1..];
      var n := p + |TokenBytes(t)|;
      TokenLayout(text, p, tokens);
      if rest == [] {
        assert Render(rest) == [];
      }
      DigitsEnd(text, p, t);
      SeparatorsEnd(text, n, rest);
      ConvertToken(text, p, t);
      FaceIndicesOfTokens(text, n, rest);
      assert !EqualsCrLfLiteral(At(text, p)) && NextToken(text, p) == n > p;
      assert FaceIndices(text, p) == [Strtol(text, p).value] + FaceIndices(text, n);
      assert TokenValues(tokens) == [TokenValue(t)] + TokenValues(rest);
    }
  }

  /** Every byte of a well-formed token is a payload byte. */
  lemma TokenBytesArePayload(t: IndexToken)
    requires WellFormedToken(t)
    ensures forall k :: 0 <= k < |TokenBytes(t)| ==> IsPayloadByte(TokenBytes(t)[k])
  {
    var s, d := |SignBytes(t.sign)|, |t.digits|;
    forall k | 0 <= k < |TokenBytes(t)|
      ensures IsPayloadByte(TokenBytes(t)[k])
    {
      if k < s {
        assert TokenBytes(t)[k] == SignBytes(t.sign)[k];
      } else if k < s + d {
        assert TokenBytes(t)[k] == t.digits[k - s];
      } else {
        assert TokenBytes(t)[k] == t.separator[k - s - d];
      }
    }
  }

  /** Every byte of a run of well-formed tokens is a payload byte. */
  lemma {:induction false} RenderIsPayload(tokens: seq<IndexToken>)
    requires WellFormedTokens(tokens)
    ensures forall k :: 0 <= k < |Render(tokens)| ==> IsPayloadByte(Render(tokens)[k])
    decreases |tokens|
  {
    if tokens != [] {
      var head, rest := TokenBytes(tokens[0]), Render(tokens[1..]);
      TokenBytesArePayload(tokens[0]);
      RenderIsPayload(tokens[1..]);
      assert Render(tokens) == head + rest;
      forall k | 0 <= k < |head + rest|
        ensures IsPayloadByte((head + rest)[k])
      {
        if k >= |head| {
          assert (head + rest)[k] == rest[k - |head|];
        }
      }
    }
  }

  /** The keyword skip over 'f' and `spaces` spaces stops on a sign, a digit or the '\n'. */
  lemma FaceKeywordSkip(text: seq<Char8>, pos: nat, spaces: nat)
    requires pos + spaces < |text| && text[pos] == 'f'
    requires forall k :: pos < k <= pos + spaces ==> text[k] == ' '
    requires var c := At(text, pos + 1 + spaces); !IsIndexSeparator(c) && (c == '\n' || IsPayloadByte(c))
    ensures RunLen(text, pos, LineStart) == 1 + spaces
  {
    RunLenOfRun(text, pos, 1 + spaces, LineStart);
  }

  /** The bytes of a payload of well-formed tokens are payload bytes, and the '\n' after it
      lies inside the text. */
  lemma PayloadBytes(text: seq<Char8>, b: nat, tokens: seq<IndexToken>)
    requires WellFormedTokens(tokens) && PayloadAt(text, b, tokens)
    ensures b + |Render(tokens)| < |text| && text[b + |Render(tokens)|] == '\n'
    ensures forall k :: b <= k < b + |Render(tokens)| ==> IsPayloadByte(text[k])
  {
    var r := Render(tokens);
    RenderIsPayload(tokens);
    forall k | b <= k < b + |r|
      ensures IsPayloadByte(text[k])
    {
      assert text[k] == text[b..b + |r|][k - b] == r[k - b];
    }
  }

  /** A face line made of 'f', spaces, `n` payload bytes and a '\n' runs to that '\n': no
      byte before it is NUL or '\n'. */
  lemma FaceLineLen(text: seq<Char8>, pos: nat, spaces: nat, n: nat)
    requires pos + 1 + spaces + n < |text| && text[pos] == 'f'
    requires forall k :: pos < k <= pos + spaces ==> text[k] == ' '
    requires forall k :: pos + 1 + spaces <= k < pos + 1 + spaces + n ==> IsPayloadByte(text[k])
    requires text[pos + 1 + spaces + n] == '\n'
    ensures LineLen(text, pos) == 2 + spaces + n
  {
    LineLenOfLine(text, pos, 2 + spaces + n);
  }

  /** A whole face line: 'f', spaces, then a payload of well-formed tokens and the '\n'. The
      line runs to that '\n', the keyword skip stops on the payload, the line parses, and
      it stores the tokens' values in order. */
  lemma FaceLineOfTokens(text: seq<Char8>, pos: nat, spaces: nat, tokens: seq<IndexToken>)
    requires pos + spaces < |text| && text[pos] == 'f'
    requires forall k :: pos < k <= pos + spaces ==> text[k] == ' '
    requires WellFormedTokens(tokens) && PayloadAt(text, pos + 1 + spaces, tokens)
    ensures LineLen(text, pos) == 2 + spaces + |Render(tokens)|
    ensures var line := StringView(pos, LineLen(text, pos));
            && GetObjLineType(text, line) == Face
            && BodyStart(text, line) == pos + 1 + spaces
            && ParsableFace(text, line)
            && LineIndices(text, line) == TokenValues(tokens)
  {
    var b := pos + 1 + spaces;
    var r := Render(tokens);
    PayloadBytes(text, b, tokens);
    FaceLineLen(text, pos, spaces, |r|);
    var line := StringView(pos, 2 + spaces + |r|);
    SeparatorsEnd(text, b, tokens);
    FaceKeywordSkip(text, pos, spaces);
    assert BodyStart(text, line) == b;
    FaceIndicesOfTokens(text, b, tokens);
  }

  /** A '/' where a number should start converts nothing: the loop stores 0, then skips the
      separators and goes on. */
  lemma SlashStoresZero(text: seq<Char8>, p: nat)
    requires p <= |text| && At(text, p) == '/'
    ensures Strtol(text, p) == Conversion(0, p)
    ensures p < NextToken(text, p) == p + RunLen(text, p, IndexSeparator)
    ensures FaceParses(text, p) <==> FaceParses(text, NextToken(text, p))
    ensures FaceIndices(text, p) == [0] + FaceIndices(text, NextToken(text, p))
  {
    RunLenOfRun(text, p, 0, WhiteSpace);
    RunLenOfRun(text, p, 0, Digit);
  }

  /** A token of one digit and no sign stands for that digit's value. */
  lemma OneDigitValue(t: IndexToken)
    requires t.sign == NoSign && |t.digits| == 1
    ensures TokenValue(t) == DigitValue(t.digits[0])
  {
    assert t.digits[..0] == [];
    assert DecimalValue(t.digits) == DigitValue(t.digits[0]);
  }

  /** The bytes of two runs of tokens, one after the other. */
  lemma {:induction false} RenderAppend(x: seq<IndexToken>, y: seq<IndexToken>)
    ensures Render(x + y) == Render(x) + Render(y)
    decreases |x|
  {
    if x != [] {
      assert (x + y)[1..] == x[1..] + y;
      RenderAppend(x[1..], y);
    } else {
      assert x + y == y;
    }
  }

  /** The values of two runs of tokens, one after the other. */
  lemma {:induction false} TokenValuesAppend(x: seq<IndexToken>, y: seq<IndexToken>)
    ensures TokenValues(x + y) == TokenValues(x) + TokenValues(y)
    decreases |x|
  {
    if x != [] {
      assert (x + y)[1..] == x[1..] + y;
      TokenValuesAppend(x[1..], y);
    } else {
      assert x + y == y;
    }
  }

  /** Two runs of well-formed tokens make one when the first ends in separators. */
  lemma {:induction false} WellFormedTokensAppend(x: seq<IndexToken>, y: seq<IndexToken>)
    requires WellFormedTokens(x) && WellFormedTokens(y)
    requires x != [] ==> |x[|x| - 1].separator| > 0
    ensures WellFormedTokens(x + y)
    decreases |x|
  {
    if x != [] {
      assert (x + y)[1..] == x[1..] + y;
      WellFormedTokensAppend(x[1..], y);
    } else {
      assert x + y == y;
    }
  }

  // ---------------------------------------------------------------------------------------
  // Vertex, texture-coordinate and normal lines

  /** A 32-bit float, kept as its bit pattern; the model never interprets it. The all-zero
      pattern is +0.0f, the value calloc leaves. */
  datatype Float = Float(bits: bv32)

  datatype Vec2 = Vec2(x: Float, y: Float)

  datatype Vec3 = Vec3(x: Float, y: Float, z: Float)

  /** What strtof returns and where it leaves its end pointer. */
  datatype FloatConversion = FloatConversion(value: Float, end: nat)

  /** strtof from the C library, given to the model as a parameter: the float at an offset of
      the buffer and the offset where the conversion stopped. */
  type Strtof = (seq<Char8>, nat) -> FloatConversion

  /** Three successive strtof calls from the payload start. */
  function GetVec3FromObjLine(text: seq<Char8>, line: StringView, strtof: Strtof): (v: Vec3)
    requires line.start <= |text|
    ensures v.x == strtof(text, BodyStart(text, line)).value
  {
    var x := strtof(text, BodyStart(text, line));
    var y := strtof(text, x.end);
    var z := strtof(text, y.end);
    Vec3(x.value, y.value, z.value)
  }

  /** Two successive strtof calls from the payload start. */
  function GetVec2FromObjLine(text: seq<Char8>, line: StringView, strtof: Strtof): (v: Vec2)
    requires line.start <= |text|
    ensures v.x == strtof(text, BodyStart(text, line)).value
  {
    var x := strtof(text, BodyStart(text, line));
    var y := strtof(text, x.end);
    Vec2(x.value, y.value)
  }
}
