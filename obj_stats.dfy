/** The first pass of the loader: one walk over the lines that counts what the second pass
    must allocate. */
module ObjStatsPass {
  import opened ObjText
  import opened ObjLine

  datatype Option<T> = None | Some(value: T)

  /** The five counters of the source's ObjStats record. The source keeps them in `int`; the
      model does not bound them. */
  datatype ObjStats = ObjStats(
    positionCount: nat,
    texCoordCount: nat,
    normalCount: nat,
    indicesPerVertexCount: nat,
    faceCount: nat)

  /** The line the reader returns when its cursor is at `pos`. */
  function LineAt(text: seq<Char8>, pos: nat): (line: StringView)
    requires pos <= |text|
    ensures IsLine(text, line) && line.start == pos
  {
    StringView(pos, LineLen(text, pos))
  }

  /** The reader whose cursor stands at the start of the `k`-th line it returns from `pos`
      returns exactly the lines from the `k`-th on, and the first of them is LineAt there:
      the first pass, stepping line by line with LineAt, walks the reader's lines. */
  lemma {:induction false} LinesFromSuffix(text: seq<Char8>, pos: nat, k: nat)
    requires pos <= |text| && k < |LinesFrom(text, pos)|
    ensures LinesFrom(text, pos)[k].start <= |text|
    ensures LinesFrom(text, LinesFrom(text, pos)[k].start) == LinesFrom(text, pos)[k..]
    ensures LineAt(text, LinesFrom(text, pos)[k].start) == LinesFrom(text, pos)[k]
    decreases k
  {
    var n := LineLen(text, pos);
    assert LinesFrom(text, pos) == [StringView(pos, n)] + LinesFrom(text, pos + n);
    if k > 0 {
      LinesFromSuffix(text, pos + n, k - 1);
      assert LinesFrom(text, pos)[k..] == LinesFrom(text, pos + n)[k - 1..];
    }
  }

  /** The number of lines of kind `t` from the line at `pos` to the end of the text. */
  function CountFrom(text: seq<Char8>, pos: nat, t: ObjLineType): nat
    requires pos <= |text|
    decreases |text| - pos
  {
    var line := LineAt(text, pos);
    if line.len == 0 then 0
    else (if GetObjLineType(text, line) == t then 1 else 0) + CountFrom(text, pos + line.len, t)
  }

  /** The first line of kind `t` at or after the line at `pos`, if there is one. */
  function FirstFrom(text: seq<Char8>, pos: nat, t: ObjLineType): (r: Option<StringView>)
    requires pos <= |text|
    ensures r.Some? ==> pos <= r.value.start < |text|
    decreases |text| - pos
  {
    var line := LineAt(text, pos);
    if line.len == 0 then None
    else if GetObjLineType(text, line) == t then Some(line)
    else FirstFrom(text, pos + line.len, t)
  }

  /** The line FirstFrom finds is a line of the reader, not empty, and of kind `t`. */
  lemma {:induction false} FirstFromIsLineOfKind(text: seq<Char8>, pos: nat, t: ObjLineType)
    requires pos <= |text|
    ensures var r := FirstFrom(text, pos, t);
            r.Some? ==> IsLine(text, r.value) && r.value.len > 0 && GetObjLineType(text, r.value) == t
    decreases |text| - pos
  {
    var line := LineAt(text, pos);
    if line.len > 0 && GetObjLineType(text, line) != t {
      FirstFromIsLineOfKind(text, pos + line.len, t);
    }
  }

  /** There is a line of kind `t` from `pos` on exactly when the count of such lines is
      positive. */
  lemma {:induction false} FirstFromIffCount(text: seq<Char8>, pos: nat, t: ObjLineType)
    requires pos <= |text|
    ensures FirstFrom(text, pos, t).Some? <==> CountFrom(text, pos, t) > 0
    decreases |text| - pos
  {
    var line := LineAt(text, pos);
    if line.len > 0 && GetObjLineType(text, line) != t {
      FirstFromIffCount(text, pos + line.len, t);
    }
  }

  /** The first face line from `pos` on, if there is one, has a space somewhere after its
      payload start, so GetIndicesPerVertexCountFromObjLine stops on it. */
  ghost predicate FirstFaceCountableFrom(text: seq<Char8>, pos: nat)
    requires pos <= |text|
    decreases |text| - pos
  {
    var line := LineAt(text, pos);
    if line.len == 0 then true
    else if GetObjLineType(text, line) == Face then HasSpaceFrom(text, BodyStart(text, line))
    else FirstFaceCountableFrom(text, pos + line.len)
  }

  /** The index fields per corner of the first face line from `pos` on: one more than the
      slashes of its first corner group, or 0 when no face follows. */
  ghost function IndicesPerVertexFrom(text: seq<Char8>, pos: nat): nat
    requires pos <= |text| && FirstFaceCountableFrom(text, pos)
    decreases |text| - pos
  {
    var line := LineAt(text, pos);
    if line.len == 0 then 0
    else if GetObjLineType(text, line) == Face then 1 + FirstCornerSlashes(text, line)
    else IndicesPerVertexFrom(text, pos + line.len)
  }

  /** The first-face definitions above pick the face FirstFrom finds: the count is 0 exactly
      when the text has no face line, and otherwise it is taken from the first face only. */
  lemma {:induction false} IndicesPerVertexIsFirstFace(text: seq<Char8>, pos: nat)
    requires pos <= |text|
    ensures FirstFaceCountableFrom(text, pos) <==>
              (FirstFrom(text, pos, Face).Some? ==>
                 HasSpaceFrom(text, BodyStart(text, FirstFrom(text, pos, Face).value)))
    ensures FirstFaceCountableFrom(text, pos) ==>
              IndicesPerVertexFrom(text, pos) ==
                match FirstFrom(text, pos, Face)
                case None => 0
                case Some(line) => 1 + CountChar(FirstCornerGroup(text, line), '/')
    decreases |text| - pos
  {
    var line := LineAt(text, pos);
    if line.len > 0 {
      if GetObjLineType(text, line) == Face {
        if HasSpaceFrom(text, BodyStart(text, line)) {
          FirstCornerSlashesCount(text, line);
        }
      } else {
        IndicesPerVertexIsFirstFace(text, pos + line.len);
      }
    }
  }

  /** A comment or unknown line leaves every count and the first face where they were. */
  lemma IgnoredLineCountsNothing(text: seq<Char8>, pos: nat)
    requires pos < |text| && LineLen(text, pos) > 0
    requires GetObjLineType(text, LineAt(text, pos)) in {Comment, Unknown}
    ensures forall t :: t in {Vertex, TexCoord, Normal, Face} ==>
              CountFrom(text, pos, t) == CountFrom(text, pos + LineLen(text, pos), t)
    ensures FirstFrom(text, pos, Face) == FirstFrom(text, pos + LineLen(text, pos), Face)
  {
  }

  /** One line's share of the counts: a line adds one to the count of its own kind only,
      and a line other than a face passes the first face on to the lines after it. */
  lemma StatsStep(text: seq<Char8>, line: StringView)
    requires line.start <= |text| && line == LineAt(text, line.start) && line.len > 0
    ensures forall t :: CountFrom(text, line.start, t) ==
              (if GetObjLineType(text, line) == t then 1 else 0) + CountFrom(text, line.start + line.len, t)
    ensures GetObjLineType(text, line) != Face ==>
              (FirstFaceCountableFrom(text, line.start) <==> FirstFaceCountableFrom(text, line.start + line.len))
              && (FirstFaceCountableFrom(text, line.start) ==>
                    IndicesPerVertexFrom(text, line.start) == IndicesPerVertexFrom(text, line.start + line.len))
    ensures GetObjLineType(text, line) == Face ==>
              (FirstFaceCountableFrom(text, line.start) <==> HasSpaceFrom(text, BodyStart(text, line)))
              && (FirstFaceCountableFrom(text, line.start) ==>
                    IndicesPerVertexFrom(text, line.start) == 1 + FirstCornerSlashes(text, line))
  {
  }

  /** What the first pass computes for `text`, as one record. */
  ghost function StatsOf(text: seq<Char8>): ObjStats
    requires FirstFaceCountableFrom(text, 0)
  {
    ObjStats(CountFrom(text, 0, Vertex), CountFrom(text, 0, TexCoord), CountFrom(text, 0, Normal),
             IndicesPerVertexFrom(text, 0), CountFrom(text, 0, Face))
  }

  /** The state of the first pass before the line at `pos`: each count plus the lines of its
      kind still to come gives the count for the whole text, and the index fields per corner
      are still 0 until the first face line has been met, then the whole text's value. */
  ghost predicate Counted(text: seq<Char8>, pos: nat, stats: ObjStats) {
    && pos <= |text|
    && FirstFaceCountableFrom(text, 0)
    && CountFrom(text, 0, Vertex) == stats.positionCount + CountFrom(text, pos, Vertex)
    && CountFrom(text, 0, TexCoord) == stats.texCoordCount + CountFrom(text, pos, TexCoord)
    && CountFrom(text, 0, Normal) == stats.normalCount + CountFrom(text, pos, Normal)
    && CountFrom(text, 0, Face) == stats.faceCount + CountFrom(text, pos, Face)
    && (stats.faceCount == 0 ==>
          stats.indicesPerVertexCount == 0 && FirstFaceCountableFrom(text, pos)
          && IndicesPerVertexFrom(text, 0) == IndicesPerVertexFrom(text, pos))
    && (stats.faceCount > 0 ==> stats.indicesPerVertexCount == IndicesPerVertexFrom(text, 0))
  }

  /** The switch of the first pass for one line: the line is added to the count of its kind,
      and the first face line sets the index fields per corner. */
  method CountObjLine(text: seq<Char8>, line: StringView, stats: ObjStats) returns (stats': ObjStats)
    requires line.start <= |text| && line == LineAt(text, line.start) && line.len > 0
    requires Counted(text, line.start, stats)
    ensures Counted(text, line.start + line.len, stats')
  {
    StatsStep(text, line);
    stats' := stats;
    var lineType := GetObjLineType(text, line);
    match lineType {
      case Vertex =>
        stats' := stats'.(positionCount := stats'.positionCount + 1);
      case TexCoord =>
        stats' := stats'.(texCoordCount := stats'.texCoordCount + 1);
      case Normal =>
        stats' := stats'.(normalCount := stats'.normalCount + 1);
      case Face =>
        if stats'.faceCount == 0 {
          var count := GetIndicesPerVertexCountFromObjLine(text, line);
          stats' := stats'.(indicesPerVertexCount := count);
        }
        stats' := stats'.(faceCount := stats'.faceCount + 1);
      case _ =>
    }
  }

  /** Counts the vertex, texture-coordinate, normal and face lines, and takes the index
      fields per corner from the first face line. */
  method GetObjStats(text: seq<Char8>) returns (stats: ObjStats)
    requires FirstFaceCountableFrom(text, 0)
    ensures stats == StatsOf(text)
  {
    var reader := new StringReader(text);
    stats := ObjStats(0, 0, 0, 0, 0);
    var line := reader.ReadLine();
    while line.len > 0
      invariant reader.Valid() && reader.text == text
      invariant line.start <= |text| && line == LineAt(text, line.start)
      invariant reader.pos == line.start + line.len
      invariant Counted(text, line.start, stats)
      decreases |text| - line.start
    {
      stats := CountObjLine(text, line, stats);
      line := reader.ReadLine();
    }
  }
}
