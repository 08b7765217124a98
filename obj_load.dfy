/** The allocation from the first pass's counts and the second pass of the loader, which
    re-reads the same lines and fills the arrays in file order through one write counter
    per kind. */
module ObjLoad {
  import opened ObjText
  import opened ObjLine
  import opened ObjStatsPass

  /** The bit pattern calloc leaves in a float: +0.0f. */
  const ZERO_FLOAT := Float(0)
  const ZERO_VEC2 := Vec2(ZERO_FLOAT, ZERO_FLOAT)
  const ZERO_VEC3 := Vec3(ZERO_FLOAT, ZERO_FLOAT, ZERO_FLOAT)

  /** sizeof(int) on the platform the program targets. */
  const SIZEOF_INT := 4

  /** The four buffers of a loaded model. The texture-coordinate and normal buffers are null
      when the file has no such lines. */
  datatype ObjData = ObjData(
    positions: array<Vec3>,
    texCoords: array?<Vec2>,
    normals: array?<Vec3>,
    indices: array<int>)

  /** The number of ints the index buffer is meant to hold: three corners per face, each
      with the same number of index fields. */
  function IndexCapacity(stats: ObjStats): nat {
    stats.faceCount * 3 * stats.indicesPerVertexCount
  }

  /** The number of ints the index buffer holds as the allocation is written: the element
      count is passed to calloc as a byte count. */
  function IndexCapacityAsWritten(stats: ObjStats): nat {
    stats.faceCount * 3 * stats.indicesPerVertexCount / SIZEOF_INT
  }

  // ---------------------------------------------------------------------------------------
  // What the second pass stores, line by line

  /** Every face line of the text parses to its '\n' (see ParsableFace). */
  ghost predicate FacesParse(text: seq<Char8>) {
    forall i :: 0 <= i < |Lines(text)| && Lines(text)[i].start < |text| ==>
      GetObjLineType(text, Lines(text)[i]) == Face ==> ParsableFace(text, Lines(text)[i])
  }

  /** The reader's line at `line.start`, when it is not empty, is the next line of the text
      after the first `k`. */
  lemma NextLineOfText(text: seq<Char8>, k: nat, line: StringView)
    requires line.start <= |text| && line == LineAt(text, line.start) && line.len > 0
    requires k <= |Lines(text)| && Lines(text)[k..] == LinesFrom(text, line.start)
    ensures k < |Lines(text)| && Lines(text)[k] == line && line.start < |text|
    ensures Lines(text)[k + 1..] == LinesFrom(text, line.start + line.len)
  {
    var rest := LinesFrom(text, line.start + line.len);
    assert LinesFrom(text, line.start) == [line] + rest;
    assert Lines(text)[k..][0] == line;
    assert Lines(text)[k + 1..] == Lines(text)[k..][1..];
  }

  /** What the second pass stores, kind by kind, in file order. */
  datatype Payload = Payload(positions: seq<Vec3>, texCoords: seq<Vec2>, normals: seq<Vec3>, indices: seq<int>)

  /** The vectors the vertex lines from `pos` on store, in file order. */
  ghost function PositionsFrom(text: seq<Char8>, pos: nat, strtof: Strtof): seq<Vec3>
    requires pos <= |text|
    decreases |text| - pos
  {
    var line := LineAt(text, pos);
    if line.len == 0 then []
    else if GetObjLineType(text, line) == Vertex then [GetVec3FromObjLine(text, line, strtof)] + PositionsFrom(text, pos + line.len, strtof)
    else PositionsFrom(text, pos + line.len, strtof)
  }

  /** The pairs the `vt` lines from `pos` on store, in file order. */
  ghost function TexCoordsFrom(text: seq<Char8>, pos: nat, strtof: Strtof): seq<Vec2>
    requires pos <= |text|
    decreases |text| - pos
  {
    var line := LineAt(text, pos);
    if line.len == 0 then []
    else if GetObjLineType(text, line) == TexCoord then [GetVec2FromObjLine(text, line, strtof)] + TexCoordsFrom(text, pos + line.len, strtof)
    else TexCoordsFrom(text, pos + line.len, strtof)
  }

  /** The vectors the normal lines from `pos` on store, in file order. */
  ghost function NormalsFrom(text: seq<Char8>, pos: nat, strtof: Strtof): seq<Vec3>
    requires pos <= |text|
    decreases |text| - pos
  {
    var line := LineAt(text, pos);
    if line.len == 0 then []
    else if GetObjLineType(text, line) == Normal then [GetVec3FromObjLine(text, line, strtof)] + NormalsFrom(text, pos + line.len, strtof)
    else NormalsFrom(text, pos + line.len, strtof)
  }

  /** The integers the face lines from `pos` on store, line after line. */
  ghost function IndicesFrom(text: seq<Char8>, pos: nat): seq<int>
    requires pos <= |text|
    decreases |text| - pos
  {
    var line := LineAt(text, pos);
    if line.len == 0 then []
    else if GetObjLineType(text, line) == Face then LineIndices(text, line) + IndicesFrom(text, pos + line.len)
    else IndicesFrom(text, pos + line.len)
  }

  /** The payload of the lines from `pos` on, kind by kind: a vertex or normal line adds its
      three floats, a `vt` line its two, a face line its integers; other lines add nothing. */
  ghost function PayloadFrom(text: seq<Char8>, pos: nat, strtof: Strtof): Payload
    requires pos <= |text|
  {
    Payload(PositionsFrom(text, pos, strtof), TexCoordsFrom(text, pos, strtof),
            NormalsFrom(text, pos, strtof), IndicesFrom(text, pos))
  }

  /** Every face line from `pos` on holds exactly `perFace` integers. */
  ghost predicate FacesHoldFrom(text: seq<Char8>, pos: nat, perFace: nat)
    requires pos <= |text|
    decreases |text| - pos
  {
    var line := LineAt(text, pos);
    if line.len == 0 then true
    else (GetObjLineType(text, line) == Face ==> |LineIndices(text, line)| == perFace)
         && FacesHoldFrom(text, pos + line.len, perFace)
  }

  // ---------------------------------------------------------------------------------------
  // The two passes agree

  /** The second pass stores one vector per vertex, `vt` and normal line the first pass
      counted. */
  lemma {:induction false} PayloadCounts(text: seq<Char8>, pos: nat, strtof: Strtof)
    requires pos <= |text|
    ensures |PositionsFrom(text, pos, strtof)| == CountFrom(text, pos, Vertex)
    ensures |TexCoordsFrom(text, pos, strtof)| == CountFrom(text, pos, TexCoord)
    ensures |NormalsFrom(text, pos, strtof)| == CountFrom(text, pos, Normal)
    decreases |text| - pos
  {
    var line := LineAt(text, pos);
    if line.len > 0 {
      PayloadCounts(text, pos + line.len, strtof);
    }
  }

  /** When every face line holds `perFace` integers, the face lines hold `perFace` integers
      per face line the first pass counted. */
  lemma {:induction false} IndicesCount(text: seq<Char8>, pos: nat, perFace: nat)
    requires pos <= |text| && FacesHoldFrom(text, pos, perFace)
    ensures |IndicesFrom(text, pos)| == CountFrom(text, pos, Face) * perFace
    decreases |text| - pos
  {
    var line := LineAt(text, pos);
    if line.len > 0 {
      var next := pos + line.len;
      IndicesCount(text, next, perFace);
      var c := CountFrom(text, next, Face);
      if GetObjLineType(text, line) == Face {
        assert |IndicesFrom(text, pos)| == perFace + |IndicesFrom(text, next)|;
        assert CountFrom(text, pos, Face) == c + 1;
        MulSucc(c, perFace);
      } else {
        assert |IndicesFrom(text, pos)| == |IndicesFrom(text, next)|;
        assert CountFrom(text, pos, Face) == c;
      }
    }
  }

  lemma MulSucc(c: nat, k: nat)
    ensures (c + 1) * k == c * k + k
  {
  }

  /** A triangulated file whose corners all have the first face's number of index fields
      fills an index buffer of IndexCapacity ints exactly. */
  lemma TrianglesFillIndexCapacity(text: seq<Char8>)
    requires FirstFaceCountableFrom(text, 0)
    requires FacesHoldFrom(text, 0, 3 * StatsOf(text).indicesPerVertexCount)
    ensures |IndicesFrom(text, 0)| == IndexCapacity(StatsOf(text))
  {
    var stats := StatsOf(text);
    IndicesCount(text, 0, 3 * stats.indicesPerVertexCount);
    MulAssoc(stats.faceCount, 3, stats.indicesPerVertexCount);
  }

  lemma MulAssoc(a: nat, b: nat, c: nat)
    ensures a * (b * c) == a * b * c
  {
  }

  /** As written, the index buffer holds a quarter of the ints it should, so the second pass
      writes past it for every file with a face line whose face lines each hold
      3 * indicesPerVertexCount integers. */
  lemma IndexCapacityAsWrittenOverrun(text: seq<Char8>)
    requires FirstFaceCountableFrom(text, 0)
    requires FacesHoldFrom(text, 0, 3 * StatsOf(text).indicesPerVertexCount)
    requires StatsOf(text).faceCount > 0
    ensures IndexCapacityAsWritten(StatsOf(text)) < |IndicesFrom(text, 0)|
  {
    var stats := StatsOf(text);
    TrianglesFillIndexCapacity(text);
    FirstFromIffCount(text, 0, Face);
    IndicesPerVertexIsFirstFace(text, 0);
    assert stats.indicesPerVertexCount >= 1;
    assert stats.faceCount * 3 * stats.indicesPerVertexCount >= 1;
  }

  /** What both passes make of a text that is one face line. */
  lemma OneFaceFile(text: seq<Char8>)
    requires 0 < |text| && LineLen(text, 0) == |text| && text[0] == 'f'
    requires HasSpaceFrom(text, BodyStart(text, StringView(0, |text|)))
    ensures Lines(text) == [StringView(0, |text|)]
    ensures FirstFaceCountableFrom(text, 0)
    ensures StatsOf(text).faceCount == 1
    ensures StatsOf(text).indicesPerVertexCount == 1 + FirstCornerSlashes(text, StringView(0, |text|))
    ensures IndicesFrom(text, 0) == LineIndices(text, StringView(0, |text|))
    ensures FacesParse(text) <==> ParsableFace(text, StringView(0, |text|))
    ensures forall n :: FacesHoldFrom(text, 0, n) <==> |LineIndices(text, StringView(0, |text|))| == n
  {
    var line := StringView(0, |text|);
    assert LineAt(text, 0) == line && GetObjLineType(text, line) == Face;
    assert LineLen(text, |text|) == 0;
    assert LinesFrom(text, |text|) == [];
    assert CountFrom(text, |text|, Face) == 0;
    assert Lines(text)[0] == line;
    assert FacesParse(text) <==> ParsableFace(text, line) by {
      if ParsableFace(text, line) {
        forall i | 0 <= i < |Lines(text)| && Lines(text)[i].start < |text|
          ensures GetObjLineType(text, Lines(text)[i]) == Face ==> ParsableFace(text, Lines(text)[i])
        {
          assert i == 0;
        }
      }
    }
  }

  // ---------------------------------------------------------------------------------------
  // The operations

  /** Allocates zero-filled buffers sized from the first pass's counts; the texture-coordinate
      and normal buffers only when the file has such lines. The index buffer holds
      IndexCapacity ints (the allocation as written holds IndexCapacityAsWritten). */
  method AllocateObjData(stats: ObjStats) returns (data: ObjData)
    ensures fresh(data.positions) && fresh(data.indices)
    ensures data.positions.Length == stats.positionCount
    ensures data.indices.Length == IndexCapacity(stats)
    ensures data.texCoords != null <==> stats.texCoordCount > 0
    ensures data.normals != null <==> stats.normalCount > 0
    ensures data.texCoords != null ==> fresh(data.texCoords) && data.texCoords.Length == stats.texCoordCount
    ensures data.normals != null ==> fresh(data.normals) && data.normals.Length == stats.normalCount
                                     && data.normals != data.positions
    ensures forall i :: 0 <= i < data.positions.Length ==> data.positions[i] == ZERO_VEC3
    ensures forall i :: 0 <= i < data.indices.Length ==> data.indices[i] == 0
    ensures data.texCoords != null ==> forall i :: 0 <= i < data.texCoords.Length ==> data.texCoords[i] == ZERO_VEC2
    ensures data.normals != null ==> forall i :: 0 <= i < data.normals.Length ==> data.normals[i] == ZERO_VEC3
  {
    var positions := new Vec3[stats.positionCount](_ => ZERO_VEC3);
    var indices := new int[IndexCapacity(stats)](_ => 0);
    var texCoords: array?<Vec2> := null;
    var normals: array?<Vec3> := null;
    if stats.texCoordCount > 0 {
      texCoords := new Vec2[stats.texCoordCount](_ => ZERO_VEC2);
    }
    if stats.normalCount > 0 {
      normals := new Vec3[stats.normalCount](_ => ZERO_VEC3);
    }
    data := ObjData(positions, texCoords, normals, indices);
  }

  /** The contents of a buffer that may be absent; an absent buffer holds nothing. */
  function Contents<T>(a: array?<T>): (s: seq<T>)
    reads a
    ensures a != null ==> s == a[..]
    ensures a == null ==> s == []
  {
    if a == null then [] else a[..]
  }

  /** What the four buffers hold, kind by kind. */
  function Buffers(data: ObjData): Payload
    reads data.positions, data.texCoords, data.normals, data.indices
  {
    Payload(data.positions[..], Contents(data.texCoords), Contents(data.normals), data.indices[..])
  }

  /** The buffers as AllocateObjData leaves them for the payload `all`: each sized for its
      kind (the index buffer at least), the optional ones present exactly when their kind
      occurs, and the two Vec3 buffers distinct. */
  ghost predicate Shaped(data: ObjData, all: Payload) {
    && data.positions.Length == |all.positions|
    && |all.indices| <= data.indices.Length
    && (data.texCoords != null <==> |all.texCoords| > 0)
    && (data.texCoords != null ==> data.texCoords.Length == |all.texCoords|)
    && (data.normals != null <==> |all.normals| > 0)
    && (data.normals != null ==> data.normals.Length == |all.normals| && data.normals != data.positions)
  }

  /** The state of the second pass before the line at `pos`: the buffers `buf` hold the
      first entries of each kind of `all`, up to its write counter; the lines from `pos` on
      hold the rest; the index slots not yet written are still zero. */
  ghost predicate Filled(text: seq<Char8>, pos: nat, strtof: Strtof, all: Payload, buf: Payload,
                         vertexWriteIndex: nat, texCoordWriteIndex: nat, normalWriteIndex: nat,
                         indicesWriteIndex: nat)
  {
    && pos <= |text|
    && vertexWriteIndex <= |all.positions| == |buf.positions|
    && texCoordWriteIndex <= |all.texCoords| == |buf.texCoords|
    && normalWriteIndex <= |all.normals| == |buf.normals|
    && indicesWriteIndex <= |all.indices| <= |buf.indices|
    && PositionsFrom(text, pos, strtof) == all.positions[vertexWriteIndex..]
    && TexCoordsFrom(text, pos, strtof) == all.texCoords[texCoordWriteIndex..]
    && NormalsFrom(text, pos, strtof) == all.normals[normalWriteIndex..]
    && IndicesFrom(text, pos) == all.indices[indicesWriteIndex..]
    && buf.positions[..vertexWriteIndex] == all.positions[..vertexWriteIndex]
    && buf.texCoords[..texCoordWriteIndex] == all.texCoords[..texCoordWriteIndex]
    && buf.normals[..normalWriteIndex] == all.normals[..normalWriteIndex]
    && buf.indices[..indicesWriteIndex] == all.indices[..indicesWriteIndex]
    && buf.indices[indicesWriteIndex..] == Zeros(|buf.indices| - indicesWriteIndex)
  }

  /** `n` zero ints: what calloc leaves in an index buffer. */
  function Zeros(n: nat): (s: seq<int>)
    ensures |s| == n && forall i :: 0 <= i < n ==> s[i] == 0
  {
    seq(n, _ => 0)
  }

  /** Storing the next element of `all` at `w` extends the stored prefix by one. */
  lemma PrefixExtend<T>(buf: seq<T>, all: seq<T>, w: nat, v: T)
    requires w < |buf| && w < |all| && buf[..w] == all[..w] && all[w] == v
    ensures buf[w := v][..w + 1] == all[..w + 1]
  {
  }

  /** Writing block `a` over zeros at `w` of a buffer holding the first `w` elements of
      `all`, when `a` is what follows them in `all`, extends the stored prefix by `a` and
      leaves zeros after it. */
  lemma IndicesBlock(before: seq<int>, after: seq<int>, all: seq<int>, w: nat, a: seq<int>)
    requires w + |a| <= |all| <= |before| == |after|
    requires before[..w] == all[..w] && before[w..] == Zeros(|before| - w)
    requires forall i :: w <= i < w + |a| ==> all[i] == a[i - w]
    requires forall i :: w <= i < w + |a| ==> after[i] == a[i - w]
    requires forall i :: 0 <= i < |after| && !(w <= i < w + |a|) ==> after[i] == before[i]
    ensures after[..w + |a|] == all[..w + |a|]
    ensures after[w + |a|..] == Zeros(|after| - (w + |a|))
  {
  }

  /** `data.positions[vertexWriteIndex++] = GetVec3FromObjLine(line)` for a vertex line. */
  method StoreVertex(text: seq<Char8>, line: StringView, strtof: Strtof, data: ObjData, ghost all: Payload,
                     vertexWriteIndex: nat, texCoordWriteIndex: nat, normalWriteIndex: nat,
                     indicesWriteIndex: nat)
    returns (vertexWriteIndex': nat)
    requires line.start <= |text| && line == LineAt(text, line.start) && line.len > 0
    requires GetObjLineType(text, line) == Vertex
    requires Shaped(data, all)
    requires Filled(text, line.start, strtof, all, Buffers(data),
                    vertexWriteIndex, texCoordWriteIndex, normalWriteIndex, indicesWriteIndex)
    modifies data.positions
    ensures Filled(text, line.start + line.len, strtof, all, Buffers(data),
                   vertexWriteIndex', texCoordWriteIndex, normalWriteIndex, indicesWriteIndex)
    ensures vertexWriteIndex' == vertexWriteIndex + 1 && vertexWriteIndex < data.positions.Length
    ensures data.positions[vertexWriteIndex] == GetVec3FromObjLine(text, line, strtof)
    ensures forall i :: 0 <= i < data.positions.Length && i != vertexWriteIndex ==>
              data.positions[i] == old(data.positions[i])
  {
    var v := GetVec3FromObjLine(text, line, strtof);
    PrefixExtend(Buffers(data).positions, all.positions, vertexWriteIndex, v);
    data.positions[vertexWriteIndex] := v;
    vertexWriteIndex' := vertexWriteIndex + 1;
  }

  /** `data.texCoords[texCoordWriteIndex++] = GetVec2FromObjLine(line)` for a `vt` line. */
  method StoreTexCoord(text: seq<Char8>, line: StringView, strtof: Strtof, data: ObjData, ghost all: Payload,
                       vertexWriteIndex: nat, texCoordWriteIndex: nat, normalWriteIndex: nat,
                       indicesWriteIndex: nat)
    returns (texCoordWriteIndex': nat)
    requires line.start <= |text| && line == LineAt(text, line.start) && line.len > 0
    requires GetObjLineType(text, line) == TexCoord
    requires Shaped(data, all)
    requires Filled(text, line.start, strtof, all, Buffers(data),
                    vertexWriteIndex, texCoordWriteIndex, normalWriteIndex, indicesWriteIndex)
    modifies data.texCoords
    ensures Filled(text, line.start + line.len, strtof, all, Buffers(data),
                   vertexWriteIndex, texCoordWriteIndex', normalWriteIndex, indicesWriteIndex)
    ensures texCoordWriteIndex' == texCoordWriteIndex + 1
    ensures data.texCoords != null && texCoordWriteIndex < data.texCoords.Length
    ensures data.texCoords[texCoordWriteIndex] == GetVec2FromObjLine(text, line, strtof)
    ensures forall i :: 0 <= i < data.texCoords.Length && i != texCoordWriteIndex ==>
              data.texCoords[i] == old(data.texCoords[i])
  {
    var v := GetVec2FromObjLine(text, line, strtof);
    PrefixExtend(Buffers(data).texCoords, all.texCoords, texCoordWriteIndex, v);
    data.texCoords[texCoordWriteIndex] := v;
    texCoordWriteIndex' := texCoordWriteIndex + 1;
  }

  /** `data.normals[normalWriteIndex++] = GetVec3FromObjLine(line)` for a normal line. */
  method StoreNormal(text: seq<Char8>, line: StringView, strtof: Strtof, data: ObjData, ghost all: Payload,
                     vertexWriteIndex: nat, texCoordWriteIndex: nat, normalWriteIndex: nat,
                     indicesWriteIndex: nat)
    returns (normalWriteIndex': nat)
    requires line.start <= |text| && line == LineAt(text, line.start) && line.len > 0
    requires GetObjLineType(text, line) == Normal
    requires Shaped(data, all)
    requires Filled(text, line.start, strtof, all, Buffers(data),
                    vertexWriteIndex, texCoordWriteIndex, normalWriteIndex, indicesWriteIndex)
    modifies data.normals
    ensures Filled(text, line.start + line.len, strtof, all, Buffers(data),
                   vertexWriteIndex, texCoordWriteIndex, normalWriteIndex', indicesWriteIndex)
    ensures normalWriteIndex' == normalWriteIndex + 1
    ensures data.normals != null && normalWriteIndex < data.normals.Length
    ensures data.normals[normalWriteIndex] == GetVec3FromObjLine(text, line, strtof)
    ensures forall i :: 0 <= i < data.normals.Length && i != normalWriteIndex ==>
              data.normals[i] == old(data.normals[i])
  {
    var v := GetVec3FromObjLine(text, line, strtof);
    PrefixExtend(Buffers(data).normals, all.normals, normalWriteIndex, v);
    data.normals[normalWriteIndex] := v;
    normalWriteIndex' := normalWriteIndex + 1;
  }

  /** `GetIndicesFromObjLine(line, data.indices, &indicesWriteIndex)` for a face line. */
  method StoreFace(text: seq<Char8>, line: StringView, strtof: Strtof, data: ObjData, ghost all: Payload,
                   vertexWriteIndex: nat, texCoordWriteIndex: nat, normalWriteIndex: nat,
                   indicesWriteIndex: nat)
    returns (indicesWriteIndex': nat)
    requires line.start <= |text| && line == LineAt(text, line.start) && line.len > 0
    requires GetObjLineType(text, line) == Face && ParsableFace(text, line)
    requires Shaped(data, all)
    requires Filled(text, line.start, strtof, all, Buffers(data),
                    vertexWriteIndex, texCoordWriteIndex, normalWriteIndex, indicesWriteIndex)
    modifies data.indices
    ensures Filled(text, line.start + line.len, strtof, all, Buffers(data),
                   vertexWriteIndex, texCoordWriteIndex, normalWriteIndex, indicesWriteIndex')
    ensures indicesWriteIndex' == indicesWriteIndex + |LineIndices(text, line)| <= data.indices.Length
    ensures forall i :: indicesWriteIndex <= i < indicesWriteIndex' ==>
              data.indices[i] == LineIndices(text, line)[i - indicesWriteIndex]
    ensures forall i :: 0 <= i < data.indices.Length && !(indicesWriteIndex <= i < indicesWriteIndex') ==>
              data.indices[i] == old(data.indices[i])
  {
    SplitAt(all.indices, indicesWriteIndex, LineIndices(text, line),
            IndicesFrom(text, line.start + line.len));
    ghost var before := Buffers(data);
    indicesWriteIndex' := GetIndicesFromObjLine(text, line, data.indices, indicesWriteIndex);
    IndicesBlock(before.indices, data.indices[..], all.indices, indicesWriteIndex, LineIndices(text, line));
    FaceFilled(text, line, strtof, all, before, Buffers(data),
               vertexWriteIndex, texCoordWriteIndex, normalWriteIndex, indicesWriteIndex);
  }

  /** The state after a face line: the other buffers as they were, the index buffer holding
      the line's indices after the ones already stored, zeros after them. */
  lemma FaceFilled(text: seq<Char8>, line: StringView, strtof: Strtof, all: Payload, before: Payload, after: Payload,
                   vertexWriteIndex: nat, texCoordWriteIndex: nat, normalWriteIndex: nat,
                   indicesWriteIndex: nat)
    requires line.start <= |text| && line == LineAt(text, line.start) && line.len > 0
    requires GetObjLineType(text, line) == Face
    requires Filled(text, line.start, strtof, all, before,
                    vertexWriteIndex, texCoordWriteIndex, normalWriteIndex, indicesWriteIndex)
    requires after.positions == before.positions && after.texCoords == before.texCoords
    requires after.normals == before.normals && |after.indices| == |before.indices|
    requires indicesWriteIndex + |LineIndices(text, line)| <= |all.indices|
    requires all.indices[indicesWriteIndex + |LineIndices(text, line)|..] == IndicesFrom(text, line.start + line.len)
    requires after.indices[..indicesWriteIndex + |LineIndices(text, line)|]
             == all.indices[..indicesWriteIndex + |LineIndices(text, line)|]
    requires after.indices[indicesWriteIndex + |LineIndices(text, line)|..]
             == Zeros(|after.indices| - (indicesWriteIndex + |LineIndices(text, line)|))
    ensures Filled(text, line.start + line.len, strtof, all, after, vertexWriteIndex, texCoordWriteIndex,
                   normalWriteIndex, indicesWriteIndex + |LineIndices(text, line)|)
  {
  }

  /** A comment or unknown line stores nothing: the state before the next line is the same. */
  lemma SkipIgnoredLine(text: seq<Char8>, line: StringView, strtof: Strtof, all: Payload, buf: Payload,
                        vertexWriteIndex: nat, texCoordWriteIndex: nat, normalWriteIndex: nat,
                        indicesWriteIndex: nat)
    requires line.start <= |text| && line == LineAt(text, line.start) && line.len > 0
    requires GetObjLineType(text, line) in {Comment, Unknown}
    requires Filled(text, line.start, strtof, all, buf,
                    vertexWriteIndex, texCoordWriteIndex, normalWriteIndex, indicesWriteIndex)
    ensures Filled(text, line.start + line.len, strtof, all, buf,
                   vertexWriteIndex, texCoordWriteIndex, normalWriteIndex, indicesWriteIndex)
  {
  }

  /** One round of the second pass: the switch on the line's kind, then the next line. */
  method StoreObjLine(text: seq<Char8>, line: StringView, ghost k: nat, reader: StringReader, strtof: Strtof,
                      data: ObjData, ghost all: Payload,
                      vertexWriteIndex: nat, texCoordWriteIndex: nat, normalWriteIndex: nat,
                      indicesWriteIndex: nat)
    returns (vertexWriteIndex': nat, texCoordWriteIndex': nat, normalWriteIndex': nat,
             indicesWriteIndex': nat, next: StringView)
    requires line.start <= |text| && line == LineAt(text, line.start) && line.len > 0
    requires reader.Valid() && reader.text == text && reader.pos == line.start + line.len
    requires FacesParse(text) && k <= |Lines(text)| && Lines(text)[k..] == LinesFrom(text, line.start)
    requires Shaped(data, all)
    requires Filled(text, line.start, strtof, all, Buffers(data),
                    vertexWriteIndex, texCoordWriteIndex, normalWriteIndex, indicesWriteIndex)
    modifies reader, data.positions, data.texCoords, data.normals, data.indices
    ensures reader.Valid() && reader.text == text
    ensures next.start == line.start + line.len && next.start <= |text| && next == LineAt(text, next.start)
    ensures reader.pos == next.start + next.len
    ensures Lines(text)[k + 1..] == LinesFrom(text, next.start)
    ensures Filled(text, next.start, strtof, all, Buffers(data),
                   vertexWriteIndex', texCoordWriteIndex', normalWriteIndex', indicesWriteIndex')
  {
    NextLineOfText(text, k, line);
    vertexWriteIndex', texCoordWriteIndex', normalWriteIndex', indicesWriteIndex' :=
      vertexWriteIndex, texCoordWriteIndex, normalWriteIndex, indicesWriteIndex;
    var lineType := GetObjLineType(text, line);
    match lineType {
      case Vertex =>
        vertexWriteIndex' := StoreVertex(text, line, strtof, data, all,
          vertexWriteIndex, texCoordWriteIndex, normalWriteIndex, indicesWriteIndex);
      case TexCoord =>
        texCoordWriteIndex' := StoreTexCoord(text, line, strtof, data, all,
          vertexWriteIndex, texCoordWriteIndex, normalWriteIndex, indicesWriteIndex);
      case Normal =>
        normalWriteIndex' := StoreNormal(text, line, strtof, data, all,
          vertexWriteIndex, texCoordWriteIndex, normalWriteIndex, indicesWriteIndex);
      case Face =>
        indicesWriteIndex' := StoreFace(text, line, strtof, data, all,
          vertexWriteIndex, texCoordWriteIndex, normalWriteIndex, indicesWriteIndex);
      case _ =>
        SkipIgnoredLine(text, line, strtof, all, Buffers(data),
          vertexWriteIndex, texCoordWriteIndex, normalWriteIndex, indicesWriteIndex);
    }
    next := reader.ReadLine();
  }

  /** Once no line is left, every write counter stands at the end of its kind's payload and
      the buffers hold the payload in full. */
  lemma FilledAtEnd(text: seq<Char8>, pos: nat, strtof: Strtof, all: Payload, buf: Payload,
                    vertexWriteIndex: nat, texCoordWriteIndex: nat, normalWriteIndex: nat,
                    indicesWriteIndex: nat)
    requires Filled(text, pos, strtof, all, buf,
                    vertexWriteIndex, texCoordWriteIndex, normalWriteIndex, indicesWriteIndex)
    requires LineLen(text, pos) == 0
    ensures vertexWriteIndex == |all.positions| && buf.positions == all.positions
    ensures texCoordWriteIndex == |all.texCoords| && buf.texCoords == all.texCoords
    ensures normalWriteIndex == |all.normals| && buf.normals == all.normals
    ensures indicesWriteIndex == |all.indices| && buf.indices[..indicesWriteIndex] == all.indices
    ensures forall i :: indicesWriteIndex <= i < |buf.indices| ==> buf.indices[i] == 0
  {
  }

  /** The second pass: re-reads the lines from the start and stores each one's payload
      through the write counters into buffers shaped for `all`, the payload of the whole
      text. */
  method StoreObjLines(text: seq<Char8>, strtof: Strtof, data: ObjData, ghost all: Payload)
    returns (vertexWriteIndex: nat, texCoordWriteIndex: nat, normalWriteIndex: nat,
             indicesWriteIndex: nat)
    requires FacesParse(text) && Shaped(data, all)
    requires Filled(text, 0, strtof, all, Buffers(data), 0, 0, 0, 0)
    modifies data.positions, data.texCoords, data.normals, data.indices
    ensures vertexWriteIndex == |all.positions| && data.positions[..] == all.positions
    ensures texCoordWriteIndex == |all.texCoords| && Contents(data.texCoords) == all.texCoords
    ensures normalWriteIndex == |all.normals| && Contents(data.normals) == all.normals
    ensures indicesWriteIndex == |all.indices| && data.indices[..indicesWriteIndex] == all.indices
    ensures forall i :: indicesWriteIndex <= i < data.indices.Length ==> data.indices[i] == 0
  {
    var reader := new StringReader(text);
    vertexWriteIndex, texCoordWriteIndex, normalWriteIndex, indicesWriteIndex := 0, 0, 0, 0;
    var line := reader.ReadLine();
    ghost var buf := Buffers(data);
    ghost var k := 0;
    while line.len > 0
      invariant reader.Valid() && reader.text == text
      invariant line.start <= |text| && line == LineAt(text, line.start)
      invariant reader.pos == line.start + line.len
      invariant k <= |Lines(text)| && Lines(text)[k..] == LinesFrom(text, line.start)
      invariant buf == Buffers(data)
      invariant Filled(text, line.start, strtof, all, buf,
                       vertexWriteIndex, texCoordWriteIndex, normalWriteIndex, indicesWriteIndex)
      decreases |text| - line.start
    {
      vertexWriteIndex, texCoordWriteIndex, normalWriteIndex, indicesWriteIndex, line :=
        StoreObjLine(text, line, k, reader, strtof, data, all,
                     vertexWriteIndex, texCoordWriteIndex, normalWriteIndex, indicesWriteIndex);
      buf := Buffers(data);
      k := k + 1;
    }
    FilledAtEnd(text, line.start, strtof, all, buf,
                vertexWriteIndex, texCoordWriteIndex, normalWriteIndex, indicesWriteIndex);
  }

  /** Loads the model: the first pass counts, the buffers are allocated from the counts, and
      the second pass stores every vertex, texture coordinate, normal and face index in file
      order. Each write counter ends exactly at the first pass's count, so every write lands
      inside its buffer. */
  method LoadModelFromObjFile(text: seq<Char8>, strtof: Strtof)
    returns (data: ObjData, vertexWriteIndex: nat, texCoordWriteIndex: nat, normalWriteIndex: nat,
             indicesWriteIndex: nat)
    requires FirstFaceCountableFrom(text, 0) && FacesParse(text)
    requires |IndicesFrom(text, 0)| <= IndexCapacity(StatsOf(text))
    ensures vertexWriteIndex == StatsOf(text).positionCount == data.positions.Length
    ensures texCoordWriteIndex == StatsOf(text).texCoordCount
    ensures normalWriteIndex == StatsOf(text).normalCount
    ensures indicesWriteIndex == |IndicesFrom(text, 0)|
    ensures data.indices.Length == IndexCapacity(StatsOf(text))
    ensures data.positions[..] == PositionsFrom(text, 0, strtof)
    ensures data.texCoords != null <==> texCoordWriteIndex > 0
    ensures data.texCoords != null ==> data.texCoords[..] == TexCoordsFrom(text, 0, strtof)
    ensures data.normals != null <==> normalWriteIndex > 0
    ensures data.normals != null ==> data.normals[..] == NormalsFrom(text, 0, strtof)
    ensures data.indices[..indicesWriteIndex] == IndicesFrom(text, 0)
    ensures forall i :: indicesWriteIndex <= i < data.indices.Length ==> data.indices[i] == 0
  {
    var stats := GetObjStats(text);
    data := AllocateObjData(stats);
    ghost var all := PayloadFrom(text, 0, strtof);
    PayloadCounts(text, 0, strtof);
    assert Buffers(data).indices[0..] == Zeros(data.indices.Length);
    vertexWriteIndex, texCoordWriteIndex, normalWriteIndex, indicesWriteIndex :=
      StoreObjLines(text, strtof, data, all);
  }

  /** When the tail of `all` from `w` is `a + b`, its next |a| elements are `a` and what
      follows them is `b`. */
  lemma SplitAt(all: seq<int>, w: nat, a: seq<int>, b: seq<int>)
    requires w <= |all| && all[w..] == a + b
    ensures w + |a| <= |all|
    ensures forall i :: w <= i < w + |a| ==> all[i] == a[i - w]
    ensures all[w + |a|..] == b
  {
  }
}
