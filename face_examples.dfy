/** Worked face lines: what the face-index parser stores for the corner shapes an OBJ file
    can hold, and what the first pass's count of index fields per corner means for them. */
module FaceExamples {
  import opened ObjText
  import opened ObjLine
  import opened ObjStatsPass
  import opened ObjLoad

  /** A corner `a//b` without a texture coordinate: the doubled slash is one separator run,
      so the loop stores the two numbers and no 0 between them. */
  lemma DoubleSlashCorner(text: seq<Char8>, a: Char8, b: Char8)
    requires IsDigit(a) && IsDigit(b) && text == [a, '/', '/', b, '\n']
    ensures FaceParses(text, 0) && FaceIndices(text, 0) == [DigitValue(a), DigitValue(b)]
  {
    var tokens := [IndexToken(NoSign, [a], ['/', '/']), IndexToken(NoSign, [b], [])];
    assert tokens[1..] == [tokens[1]] && tokens[1..][1..] == [];
    assert Render(tokens[1..]) == [b];
    assert Render(tokens) == text[..4];
    FaceIndicesOfTokens(text, 0, tokens);
    OneDigitValue(tokens[0]);
    OneDigitValue(tokens[1]);
    assert TokenValues(tokens[1..]) == [TokenValue(tokens[1])];
  }

  /** The tokens of three one-digit numbers separated by single spaces. */
  lemma ThreeTokens(a: Char8, b: Char8, c: Char8)
    requires IsDigit(a) && IsDigit(b) && IsDigit(c)
    ensures var tokens := [IndexToken(NoSign, [a], [' ']), IndexToken(NoSign, [b], [' ']), IndexToken(NoSign, [c], [])];
            && WellFormedTokens(tokens)
            && Render(tokens) == [a, ' ', b, ' ', c]
            && TokenValues(tokens) == [DigitValue(a), DigitValue(b), DigitValue(c)]
  {
    var tokens := [IndexToken(NoSign, [a], [' ']), IndexToken(NoSign, [b], [' ']), IndexToken(NoSign, [c], [])];
    assert tokens[2..] == [tokens[2]] && tokens[2..][1..] == [];
    assert WellFormedTokens(tokens[2..]) && Render(tokens[2..]) == [c];
    assert WellFormedTokens(tokens[1..]) && Render(tokens[1..]) == [b, ' ', c];
    OneDigitValue(tokens[0]);
    OneDigitValue(tokens[1]);
    OneDigitValue(tokens[2]);
    assert TokenValues(tokens[2..]) == [TokenValue(tokens[2])];
    assert TokenValues(tokens[1..]) == [TokenValue(tokens[1])] + TokenValues(tokens[2..]);
  }

  /** Three one-digit numbers separated by single spaces, then the '\n'. */
  lemma ThreeNumbers(text: seq<Char8>, p: nat, a: Char8, b: Char8, c: Char8)
    requires IsDigit(a) && IsDigit(b) && IsDigit(c)
    requires p + 6 <= |text| && text[p..p + 6] == [a, ' ', b, ' ', c, '\n']
    ensures FaceParses(text, p) && FaceIndices(text, p) == [DigitValue(a), DigitValue(b), DigitValue(c)]
  {
    var tokens := [IndexToken(NoSign, [a], [' ']), IndexToken(NoSign, [b], [' ']), IndexToken(NoSign, [c], [])];
    ThreeTokens(a, b, c);
    assert text[p..p + 5] == text[p..p + 6][..5];
    assert At(text, p + 5) == text[p..p + 6][5];
    FaceIndicesOfTokens(text, p, tokens);
  }

  /** The line `f /a b c`: the keyword skip stops on the '/'. */
  lemma SlashFirstLine(text: seq<Char8>, a: Char8, b: Char8, c: Char8)
    requires IsDigit(a) && IsDigit(b) && IsDigit(c) && text == ['f', ' ', '/', a, ' ', b, ' ', c, '\n']
    ensures IsLine(text, StringView(0, 9)) && BodyStart(text, StringView(0, 9)) == 2
    ensures At(text, 2) == '/' && RunLen(text, 2, IndexSeparator) == 1
    ensures text[3..9] == [a, ' ', b, ' ', c, '\n']
  {
    LineLenOfLine(text, 0, 9);
    RunLenOfRun(text, 0, 2, LineStart);
    RunLenOfRun(text, 2, 1, IndexSeparator);
  }

  /** A '/' where the first number should be, then three numbers. */
  lemma SlashThenNumbers(text: seq<Char8>, p: nat, a: Char8, b: Char8, c: Char8)
    requires IsDigit(a) && IsDigit(b) && IsDigit(c)
    requires p < |text| && At(text, p) == '/' && RunLen(text, p, IndexSeparator) == 1
    requires p + 7 <= |text| && text[p + 1..p + 7] == [a, ' ', b, ' ', c, '\n']
    ensures FaceParses(text, p) && FaceIndices(text, p) == [0, DigitValue(a), DigitValue(b), DigitValue(c)]
  {
    SlashStoresZero(text, p);
    ThreeNumbers(text, p + 1, a, b, c);
    assert NextToken(text, p) == p + 1;
    assert FaceIndices(text, p) == [0] + [DigitValue(a), DigitValue(b), DigitValue(c)];
  }

  /** The line `f /a b c`: the '/' where the first number should be converts nothing, so
      the loop stores a 0 for it, then skips the '/' and stores the three numbers. */
  lemma SlashFirstFace(text: seq<Char8>, a: Char8, b: Char8, c: Char8)
    requires IsDigit(a) && IsDigit(b) && IsDigit(c) && text == ['f', ' ', '/', a, ' ', b, ' ', c, '\n']
    ensures ParsableFace(text, StringView(0, 9))
    ensures LineIndices(text, StringView(0, 9)) == [0, DigitValue(a), DigitValue(b), DigitValue(c)]
  {
    SlashFirstLine(text, a, b, c);
    SlashThenNumbers(text, 2, a, b, c);
  }

  /** The two fields of a corner `d//d`: position and normal, no texture coordinate. */
  function Corner(d: Char8, last: bool): seq<IndexToken> {
    [IndexToken(NoSign, [d], ['/', '/']), IndexToken(NoSign, [d], if last then [] else [' '])]
  }

  /** The tokens of one `d//d` corner: well formed, their bytes, their two values. */
  lemma CornerTokens(d: Char8, last: bool)
    requires IsDigit(d)
    ensures WellFormedTokens(Corner(d, last))
    ensures Render(Corner(d, last)) == [d, '/', '/', d] + (if last then [] else [' '])
    ensures TokenValues(Corner(d, last)) == [DigitValue(d), DigitValue(d)]
    ensures !last ==> |Corner(d, last)[1].separator| > 0
  {
    var tokens := Corner(d, last);
    assert tokens[1..] == [tokens[1]] && tokens[1..][1..] == [];
    assert WellFormedTokens(tokens[1..]);
    assert TokenBytes(tokens[0]) == [d, '/', '/'];
    assert Render(tokens[1..]) == TokenBytes(tokens[1]) == [d] + (if last then [] else [' ']);
    OneDigitValue(tokens[0]);
    OneDigitValue(tokens[1]);
    assert TokenValues(tokens[1..]) == [TokenValue(tokens[1])];
  }

  /** The tokens of the corners `a//a b//b c//c`. */
  lemma NormalCornerTokens(a: Char8, b: Char8, c: Char8)
    requires IsDigit(a) && IsDigit(b) && IsDigit(c)
    ensures WellFormedTokens(Corner(a, false) + Corner(b, false) + Corner(c, true))
    ensures Render(Corner(a, false) + Corner(b, false) + Corner(c, true))
            == [a, '/', '/', a, ' ', b, '/', '/', b, ' ', c, '/', '/', c]
    ensures TokenValues(Corner(a, false) + Corner(b, false) + Corner(c, true))
            == [DigitValue(a), DigitValue(a), DigitValue(b), DigitValue(b), DigitValue(c), DigitValue(c)]
  {
    var x, y, z := Corner(a, false), Corner(b, false), Corner(c, true);
    CornerTokens(a, false);
    CornerTokens(b, false);
    CornerTokens(c, true);
    RenderAppend(x, y);
    RenderAppend(x + y, z);
    assert Render(x + y) == [a, '/', '/', a, ' ', b, '/', '/', b, ' '];
    TokenValuesAppend(x, y);
    TokenValuesAppend(x + y, z);
    assert TokenValues(x + y) == [DigitValue(a), DigitValue(a), DigitValue(b), DigitValue(b)];
    WellFormedTokensAppend(x, y);
    assert (x + y)[|x + y| - 1] == y[1];
    WellFormedTokensAppend(x + y, z);
  }

  /** The payload `a//a b//b c//c` before the '\n': two integers per corner. */
  lemma NormalCornerIndices(text: seq<Char8>, p: nat, a: Char8, b: Char8, c: Char8)
    requires IsDigit(a) && IsDigit(b) && IsDigit(c)
    requires p + 15 <= |text| && text[p..p + 15] == [a, '/', '/', a, ' ', b, '/', '/', b, ' ', c, '/', '/', c, '\n']
    ensures FaceParses(text, p)
    ensures FaceIndices(text, p) == [DigitValue(a), DigitValue(a), DigitValue(b), DigitValue(b), DigitValue(c), DigitValue(c)]
  {
    var tokens := Corner(a, false) + Corner(b, false) + Corner(c, true);
    NormalCornerTokens(a, b, c);
    assert text[p..p + 14] == text[p..p + 15][..14];
    assert At(text, p + 14) == text[p..p + 15][14];
    FaceIndicesOfTokens(text, p, tokens);
  }

  /** The first corner group of `a//a b//b c//c` is `a//a`: two slashes. */
  lemma NormalFirstCorner(text: seq<Char8>, p: nat, a: Char8)
    requires IsDigit(a)
    requires p + 5 <= |text| && text[p..p + 5] == [a, '/', '/', a, ' ']
    ensures HasSpaceFrom(text, p) && FirstSpace(text, p) == p + 4
    ensures CountCharBetween(text, p, p + 4, '/') == 2
  {
    assert text[p + 4] == text[p..p + 5][4];
    assert FirstSpace(text, p + 3) == p + 4 by {
      assert text[p + 3] == text[p..p + 5][3];
    }
    assert FirstSpace(text, p + 1) == p + 4 by {
      assert text[p + 1] == text[p..p + 5][1];
      assert text[p + 2] == text[p..p + 5][2];
    }
    assert text[p] == text[p..p + 5][0];
    assert CountCharBetween(text, p, p + 2, '/') == 1;
  }

  /** The line `f a//a b//b c//c`. */
  lemma NormalCornerLine(text: seq<Char8>, a: Char8, b: Char8, c: Char8)
    requires IsDigit(a) && IsDigit(b) && IsDigit(c)
    requires |text| == 17 && text[..2] == ['f', ' ']
    requires text[2..] == [a, '/', '/', a, ' ', b, '/', '/', b, ' ', c, '/', '/', c, '\n']
    ensures LineLen(text, 0) == |text| && text[0] == 'f' && BodyStart(text, StringView(0, 17)) == 2
  {
    forall k | 0 <= k < 16
      ensures text[k] != NUL && text[k] != '\n'
    {
      if k < 2 {
        assert text[k] == text[..2][k];
      } else {
        assert text[k] == text[2..][k - 2];
      }
    }
    assert text[16] == text[2..][14];
    LineLenOfLine(text, 0, 17);
    assert text[0] == text[..2][0] && text[1] == text[..2][1];
    assert text[2] == text[2..][0];
    RunLenOfRun(text, 0, 2, LineStart);
  }

  /** A one-triangle file whose corners are `position//normal`: the first pass counts three
      index fields per corner, one per slash plus one, and sizes the index buffer for nine
      integers, but the parse loop stores six, two per corner. For such files the buffer is
      larger than what is stored, and the premise of TrianglesFillIndexCapacity fails. */
  lemma NormalCornerFile(text: seq<Char8>, a: Char8, b: Char8, c: Char8)
    requires IsDigit(a) && IsDigit(b) && IsDigit(c)
    requires |text| == 17 && text[..2] == ['f', ' ']
    requires text[2..] == [a, '/', '/', a, ' ', b, '/', '/', b, ' ', c, '/', '/', c, '\n']
    ensures FirstFaceCountableFrom(text, 0) && FacesParse(text)
    ensures StatsOf(text).faceCount == 1 && StatsOf(text).indicesPerVertexCount == 3
    ensures IndexCapacity(StatsOf(text)) == 9
    ensures IndicesFrom(text, 0) == [DigitValue(a), DigitValue(a), DigitValue(b), DigitValue(b), DigitValue(c), DigitValue(c)]
    ensures !FacesHoldFrom(text, 0, 3 * StatsOf(text).indicesPerVertexCount)
  {
    NormalCornerLine(text, a, b, c);
    assert text[2..7] == text[2..][..5];
    NormalFirstCorner(text, 2, a);
    assert text[2..17] == text[2..];
    NormalCornerIndices(text, 2, a, b, c);
    OneFaceFile(text);
  }
}
