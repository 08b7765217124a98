# objviewer: OBJ loader and key bindings in Dafny

This project models two parts of `objviewer.cpp`, a small Win32/Direct3D 11 model viewer.

**The Wavefront OBJ front end.** The file's bytes are read into a zero-filled buffer one byte
longer than the file. A forward-only `StringReader` cuts the buffer into lines. The loader
makes two passes over those lines:

- The first pass (`GetObjStats`) does the following:
  - It classifies each line by its first two bytes, as a comment, vertex, texture
    coordinate, normal, face or unknown line.
  - It counts the lines of each kind.
  - It takes the number of index fields per face corner from the first face line.
- `AllocateObjData` allocates zero-filled buffers from those counts.
- The second pass (`LoadModelFromObjFile`) re-reads the same lines. It stores each vertex,
  texture coordinate and normal through its own write counter. It writes the integers of
  every face line into the index buffer with `strtol`.

**The key bindings.** A `Keybind` counts the key-down and key-up transitions of one key and
records whether the key is down. Key-up and key-down window messages update it. An
auto-repeat (bit 30 of the message's flags) marks the key down without counting a
transition. `Input` holds the viewer's seven binds and the mouse. Every frame begins by
resetting the transition counters and the relative mouse motion.

The model is split into six modules:

- `ObjText` (`obj_text.dfy`): the text buffer with its NUL sentinel, the lines, and
  `StringReader.ReadLine`. Its main result is that the lines the reader returns,
  concatenated, give back the text up to its first NUL byte.
- `ObjLine` (`obj_line.dfy`): the line classifier, the keyword skipper, and the count of
  index fields per corner. It also holds a model of base-10 `strtol` with a 32-bit `long`,
  the face-index parse loop written into an array, and the float-vector readers.
- `ObjStatsPass` (`obj_stats.dfy`): the first pass. Each count is proved to be the number of
  lines of its kind. The index fields per corner are proved to come from the first face.
- `ObjLoad` (`obj_load.dfy`): the allocation and the second pass. On return, the buffers are
  proved to hold each kind's payload in file order. Each write counter is proved to end
  exactly at the first pass's count, so no vertex, texture-coordinate or normal write leaves
  its buffer.
- `KeyInput` (`key_input.dfy`): `Keybind` and `Input` as classes updated in place. The
  methods are proved against transition functions on a `KeyState` value, which state what a
  message about the bound key and one about another key do. Lemmas cover held keys that
  auto-repeat.
- `FaceExamples` (`face_examples.dfy`): the face parser worked out on concrete corner shapes
  (`a//b`, a '/' where a number should be, `a//a b//b c//c`), with the digits left as
  parameters, and what the first pass makes of a file of one such face.

## Model

| member | source | states |
|---|---|---|
| ObjText.EqualsCrLfLiteral | objviewer.cpp:1180 | the comparison of a byte with the two-character literal '\r\n' is always false |
| ObjText.LineLen | objviewer.cpp:1178-1182 | a line stays inside the text, and it is empty exactly at the end of the text or on a NUL byte |
| ObjText.LineShape | objviewer.cpp:1178-1182 | a line holds no NUL byte, and a '\n' can only be its last byte; a line not ending in '\n' runs to the end of the text or to a NUL |
| ObjText.LinesFromAreLines | objviewer.cpp:1170-1189 | every line of the sequence is what ReadLine returns at its start, is not empty, and starts inside the text |
| ObjText.NulFromIsFirst | objviewer.cpp:1178 | the reader's stopping point is the first NUL byte |
| ObjText.LineNulFree | objviewer.cpp:1178-1182 | reading one line does not move the first NUL byte ahead |
| ObjText.LinesFromJoin | objviewer.cpp:1170-1189 | the lines read from any cursor position concatenate to the text from there up to the first NUL: nothing is dropped, repeated or reordered |
| ObjText.LinesJoin | objviewer.cpp:1170-1189 | the lines of the whole text concatenate to the text up to its first NUL byte |
| ObjText.LineLenOfLine | objviewer.cpp:1178-1182 | bytes with no NUL and no '\n' up to a closing '\n' make exactly one line, the '\n' included |
| ObjText.StringReader.constructor | objviewer.cpp:1270 | a reader starts at offset 0 of the text |
| ObjText.StringReader.ReadLine | objviewer.cpp:1170-1189 | returns the line at the cursor and advances the cursor by its length; at the end of the text it returns an empty view and does not move |
| ObjLine.GetObjLineType | objviewer.cpp:1201-1229 | each line kind, both ways, in terms of the first two bytes: '#' comment, 'f' face, "v " vertex, "vt" texture coordinate, any other 'v' normal, any other first byte unknown |
| ObjLine.RunLen | objviewer.cpp:1243-1244 | a byte-class scan stays inside the buffer and stops on a byte outside the class |
| ObjLine.BodyStartSkips | objviewer.cpp:1240-1253 | the keyword skip steps only over `v t n f ' '`, stops on a byte outside that set, and never leaves the line |
| ObjLine.SkipObjLineStart | objviewer.cpp:1240-1253 | the result starts at the payload and ends where the line ends |
| ObjLine.FirstSpaceIsFirst | objviewer.cpp:1261 | the counting scan stops at the first space after the payload start |
| ObjLine.CountCharBetweenSlice | objviewer.cpp:1261-1263 | counting slashes by offset equals counting them in the slice |
| ObjLine.FirstCornerGroupShape | objviewer.cpp:1261 | the first corner group holds no space, and a space follows it |
| ObjLine.FirstCornerSlashesCount | objviewer.cpp:1261-1263 | the scan counts exactly the '/' bytes of the first corner group |
| ObjLine.GetIndicesPerVertexCountFromObjLine | objviewer.cpp:1255-1266 | returns one more than the number of slashes in the first corner group |
| ObjLine.ClampLong | objviewer.cpp:1358 | strtol's result lies in the 32-bit `long` range and equals an in-range value unchanged |
| ObjLine.StrtolEnd | objviewer.cpp:1358 | strtol's end pointer stays inside the buffer; when it moves, it moves forward and stops on a byte that is not a digit |
| ObjLine.Strtol | objviewer.cpp:1358 | the end pointer is the one StrtolEnd gives, the value is a 32-bit `long`, and a failed conversion yields 0 |
| ObjLine.FaceIndicesInLongRange | objviewer.cpp:1358 | every integer the face parse loop stores is a 32-bit `long` |
| ObjLine.FaceRound | objviewer.cpp:1357-1360 | one round of the loop converts the next expected index, moves the cursor forward, and leaves the rest of the expected indices |
| ObjLine.ParseIndex | objviewer.cpp:1358-1360 | stores strtol's value at the write index, touches no other slot, and moves past the number and its separators |
| ObjLine.ParseIndices | objviewer.cpp:1356-1361 | the loop stores the face's integers, left to right, from the write index on, returns the advanced write index, and leaves every other slot unchanged |
| ObjLine.GetIndicesFromObjLine | objviewer.cpp:1352-1362 | the face line's integers, in order, land at the write index and after it; the write index advances by their number; no other slot changes |
| ObjLine.RunLenOfRun | objviewer.cpp:1359-1360 | a scan over a run of bytes of one class that ends on a byte outside the class covers exactly that run |
| ObjLine.DigitsValueOfRun | objviewer.cpp:1358 | strtol's digit loop over a run of digits ends with the decimal value of the whole run |
| ObjLine.DigitRun | objviewer.cpp:1358 | on a run of digits that ends on a non-digit, strtol reads the whole run and its decimal value |
| ObjLine.SeparatorRun | objviewer.cpp:1359-1360 | the separator skip over a run of '/' and ' ' that ends on another byte stops right after the run |
| ObjLine.SignedStart | objviewer.cpp:1358 | at a sign or a digit, strtol skips no white space, steps over the sign, and reads a minus exactly when the sign is '-' |
| ObjLine.StrtolOfToken | objviewer.cpp:1358 | strtol on a signed run of digits returns its signed value, saturated to a `long`, and ends right after the digits |
| ObjLine.TokenSeparators | objviewer.cpp:1359-1360 | after a token's digits, the separator skip covers exactly the token's separators |
| ObjLine.ConvertToken | objviewer.cpp:1357-1360 | one round of the loop on a token converts the token's value and leaves the cursor right after the token's separators |
| ObjLine.TokenLayout | objviewer.cpp:1357-1360 | the first token of a payload lies at its start, and the rest of the payload, still followed by the '\n', lies right after it |
| ObjLine.TokenStart | objviewer.cpp:1358-1360 | a well-formed token starts with a sign or a digit, a byte the separator skip does not step over |
| ObjLine.DigitsEnd | objviewer.cpp:1358 | a token's digits are followed by a separator or by the line's '\n', never by another digit |
| ObjLine.SeparatorsEnd | objviewer.cpp:1359-1360 | a token's separators are followed by the next token's sign or digit or by the line's '\n', never by another separator |
| ObjLine.FaceIndicesOfTokens | objviewer.cpp:1356-1361 | for any payload of signed digit runs, each followed by '/' and ' ' runs, ending in '\n': the loop terminates, and the stored integers are the runs' values in order, one per run; `1//3` stores [1, 3] |
| ObjLine.TokenBytesArePayload | objviewer.cpp:1356-1361 | every byte of a well-formed token is a sign, a digit, '/' or ' ' |
| ObjLine.RenderIsPayload | objviewer.cpp:1356-1361 | every byte of a run of well-formed tokens is a sign, a digit, '/' or ' ' |
| ObjLine.PayloadBytes | objviewer.cpp:1356-1361 | a payload of well-formed tokens holds only such bytes, and its '\n' lies inside the text |
| ObjLine.FaceLineLen | objviewer.cpp:1178-1182 | a line of 'f', spaces, payload bytes and a '\n' is read up to and including that '\n' |
| ObjLine.FaceKeywordSkip | objviewer.cpp:1240-1253 | the keyword skip over 'f' and the spaces after it stops on the payload's first byte |
| ObjLine.FaceLineOfTokens | objviewer.cpp:1352-1362 | every line of 'f', spaces and a payload of well-formed tokens ending in '\n' is a face line that parses, and it stores the tokens' values in order |
| ObjLine.SlashStoresZero | objviewer.cpp:1357-1360 | a '/' where a number should start stores 0 and moves past the separators, so the loop goes on |
| ObjLine.OneDigitValue | objviewer.cpp:1358 | an unsigned one-digit token stands for that digit's value |
| ObjLine.RenderAppend | objviewer.cpp:1356-1361 | the bytes of two token runs are the first run's bytes followed by the second's |
| ObjLine.TokenValuesAppend | objviewer.cpp:1356-1361 | the values of two token runs are the first run's values followed by the second's |
| ObjLine.WellFormedTokensAppend | objviewer.cpp:1356-1361 | two runs of well-formed tokens, the first ending in a separator, form one run of well-formed tokens |
| ObjLine.GetVec3FromObjLine | objviewer.cpp:1327-1338 | the first component is read by strtof at the payload start |
| ObjLine.GetVec2FromObjLine | objviewer.cpp:1340-1350 | the first component is read by strtof at the payload start |
| ObjStatsPass.LinesFromSuffix | objviewer.cpp:1274 | a reader whose cursor is at the start of its k-th line returns exactly the lines from the k-th on, and the first of them is the line the first pass takes there: the pass walks the reader's lines |
| ObjStatsPass.FirstFrom | objviewer.cpp:1287-1288 | the first line of a kind, when there is one, starts inside the text |
| ObjStatsPass.FirstFromIsLineOfKind | objviewer.cpp:1287-1288 | the line found is a non-empty reader line of the requested kind |
| ObjStatsPass.FirstFromIffCount | objviewer.cpp:1286-1289 | a line of a kind exists exactly when that kind's count is positive |
| ObjStatsPass.IndicesPerVertexIsFirstFace | objviewer.cpp:1286-1289 | the index fields per corner are 0 when there is no face; otherwise they are one more than the slashes of the first face's first corner group |
| ObjStatsPass.IgnoredLineCountsNothing | objviewer.cpp:1276-1291 | comment and unknown lines change no count and do not move the first face |
| ObjStatsPass.StatsStep | objviewer.cpp:1275-1290 | a line adds one to its own kind's count only; a non-face line passes the first face on to the lines after it |
| ObjStatsPass.CountObjLine | objviewer.cpp:1275-1290 | the switch of the first pass keeps the counting invariant from one line to the next |
| ObjStatsPass.GetObjStats | objviewer.cpp:1268-1295 | returns, for each kind, the number of its lines in the text, and takes the index fields per corner from the first face line |
| ObjLoad.NextLineOfText | objviewer.cpp:1379 | the line the second pass reads is the next line of the text |
| ObjLoad.PayloadCounts | objviewer.cpp:1371-1395 | the second pass stores as many vertices, texture coordinates and normals as the first pass counted |
| ObjLoad.IndicesCount | objviewer.cpp:1391-1392 | when every face line holds the same number of integers, the index payload is that number times the face count |
| ObjLoad.TrianglesFillIndexCapacity | objviewer.cpp:1309 | for triangles whose corners all have the first face's field count, the index payload fills the intended capacity exactly |
| ObjLoad.IndexCapacityAsWrittenOverrun | objviewer.cpp:1309 | the buffer as written (sized in bytes) holds fewer ints than such a file writes |
| ObjLoad.OneFaceFile | objviewer.cpp:1268-1309 | a text that is one face line is one line; the first pass counts one face and one more index field per corner than the first corner group's slashes; the index payload is that line's integers, and every face holds n integers exactly when that line holds n |
| ObjLoad.AllocateObjData | objviewer.cpp:1305-1325 | fresh zero-filled buffers, one element per counted line; the texture-coordinate and normal buffers exist exactly when their kind occurs |
| ObjLoad.PrefixExtend | objviewer.cpp:1383 | a write at the counter extends the stored prefix by one element |
| ObjLoad.IndicesBlock | objviewer.cpp:1392 | writing a face's integers at the counter extends the stored prefix and leaves zeros after it |
| ObjLoad.SplitAt | objviewer.cpp:1392 | the next integers to store are the current face's, followed by the rest |
| ObjLoad.StoreVertex | objviewer.cpp:1382-1384 | the line's vector is stored at the vertex counter, which is inside the buffer and advances by one; no other slot changes; the second-pass invariant is kept |
| ObjLoad.StoreTexCoord | objviewer.cpp:1385-1387 | the line's vector is stored at the texture-coordinate counter, which is inside the present buffer and advances by one; no other slot changes; the second-pass invariant is kept |
| ObjLoad.StoreNormal | objviewer.cpp:1388-1390 | the line's vector is stored at the normal counter, which is inside the present buffer and advances by one; no other slot changes; the second-pass invariant is kept |
| ObjLoad.StoreFace | objviewer.cpp:1391-1393 | the line's integers are stored in order from the index counter, which advances by their number and stays inside the buffer; no slot outside that block changes; the second-pass invariant is kept, including the zeros after the counter |
| ObjLoad.FaceFilled | objviewer.cpp:1391-1393 | after a face line's integers are stored, the other buffers are unchanged and the invariant holds before the next line |
| ObjLoad.SkipIgnoredLine | objviewer.cpp:1381-1394 | a comment or unknown line stores nothing |
| ObjLoad.StoreObjLine | objviewer.cpp:1379-1395 | one round of the second pass keeps the invariant and reads the next line of the text |
| ObjLoad.FilledAtEnd | objviewer.cpp:1379-1395 | after the last line, each counter equals its payload's length and the buffers hold the payload |
| ObjLoad.StoreObjLines | objviewer.cpp:1374-1395 | the second pass fills each buffer with its kind's payload in file order, and the unwritten index slots stay zero |
| ObjLoad.LoadModelFromObjFile | objviewer.cpp:1364-1395 | every buffer holds its kind's values in file order; each write counter equals the first pass's count and the buffer's length, so no write leaves its buffer |
| KeyInput.KeyCodeInjective | objviewer.cpp:78-87 | no two bound keys share a virtual-key code |
| KeyInput.KeyUp | objviewer.cpp:112-119 | a key-up message for the bound key marks it up and adds one up transition; a message for another key changes nothing; the key and the down count are never touched |
| KeyInput.KeyDown | objviewer.cpp:121-129 | a key-down message for the bound key marks it down and adds one down transition unless bit 30 of the flags is set; a message for another key changes nothing; the key and the up count are never touched |
| KeyInput.ResetTransitions | objviewer.cpp:131-135 | both transition counts become 0, and the key and its down flag are kept |
| KeyInput.HeldKeyCountsOnce | objviewer.cpp:121-129 | a fresh press followed by any number of auto-repeats counts one down transition, leaves the key down, and counts no up transition |
| KeyInput.RepeatsCountNothing | objviewer.cpp:125-127 | auto-repeats of a key that is already down change nothing |
| KeyInput.Keybind.constructor | objviewer.cpp:1492-1500 | a bind starts with no transitions and the key up |
| KeyInput.Keybind.HandleKeyUpForBind | objviewer.cpp:112-119 | for the bound key: the key becomes up and exactly one up transition is added; for any other key nothing changes |
| KeyInput.Keybind.HandleKeyDownForBind | objviewer.cpp:121-129 | for the bound key: the key becomes down, and a down transition is added only when bit 30 of the flags is clear; for any other key nothing changes |
| KeyInput.Keybind.ResetKeyTransitions | objviewer.cpp:131-135 | both counters become 0; the key and its down flag are kept |
| KeyInput.Input.constructor | objviewer.cpp:1492-1500 | the default binds are Z forward, S back, Q left, D right, A down, space up and F1 the developer toggle, with every counter, flag and mouse field at zero |
| KeyInput.Input.ResetInputKeyTransitions | objviewer.cpp:137-146 | each of the seven binds is reset, and nothing else changes |
| KeyInput.Input.ResetRelativeInputMouseData | objviewer.cpp:148-152 | the mouse motion becomes zero and the position is kept |
| KeyInput.Input.BeginFrame | objviewer.cpp:1509-1510 | after the per-frame resets, no bind has a transition and the mouse has not moved; keys, down flags and the position are kept |
| FaceExamples.DoubleSlashCorner | objviewer.cpp:1356-1361 | the payload `a//b` stores [a, b]: the doubled slash is one separator run, so no 0 is stored for the missing texture coordinate |
| FaceExamples.ThreeTokens | objviewer.cpp:1356-1361 | `a b c` is three well-formed tokens with values a, b and c |
| FaceExamples.ThreeNumbers | objviewer.cpp:1356-1361 | the payload `a b c` stores [a, b, c] |
| FaceExamples.SlashFirstLine | objviewer.cpp:1240-1253 | in `f /a b c` the keyword skip stops on the '/' |
| FaceExamples.SlashThenNumbers | objviewer.cpp:1356-1361 | a '/' and then `a b c` stores [0, a, b, c] |
| FaceExamples.SlashFirstFace | objviewer.cpp:1352-1362 | the line `f /a b c` parses and stores [0, a, b, c] |
| FaceExamples.CornerTokens | objviewer.cpp:1356-1361 | a `d//d` corner is two well-formed tokens, both of value d |
| FaceExamples.NormalCornerTokens | objviewer.cpp:1356-1361 | `a//a b//b c//c` is six well-formed tokens with values a, a, b, b, c, c |
| FaceExamples.NormalCornerIndices | objviewer.cpp:1356-1361 | the payload `a//a b//b c//c` stores [a, a, b, b, c, c] |
| FaceExamples.NormalFirstCorner | objviewer.cpp:1261-1263 | the first corner group of `a//a b//b c//c` holds two slashes |
| FaceExamples.NormalCornerLine | objviewer.cpp:1240-1253 | `f a//a b//b c//c` is one face line, the whole text, and the keyword skip stops at its payload, offset 2 |
| FaceExamples.NormalCornerFile | objviewer.cpp:1268-1309 | for the file `f a//a b//b c//c`, the first pass counts three index fields per corner and sizes the index buffer for 9 integers, but the loop stores 6: such files fill less than the intended capacity |

## Left out

- Reading the file (`ReadAllTextFromFile`): the text is a parameter. The buffer's extra zero byte (objviewer.cpp:476) is modelled by `ObjText.At`, which reads NUL at offset |text|.
- The window, Direct3D 11, shaders, the camera, timers, raw mouse input and the rest of the program are not part of this model. So are the message pump that dispatches key messages (`ProcessWindowEvents`) and `GetMousePositionInWindow`.
- `strtof` from the C library is a parameter. Floats are kept as 32-bit patterns and never interpreted.
- ObjLine.GetVec3FromObjLine: the contract fixes only where the first read starts. The `y` and `z` components chain through strtof's end pointer, which depends on the strtof parameter and states nothing more.
- ObjLine.GetVec2FromObjLine: the contract fixes only where the first read starts, for the same reason.
- ObjLine.GetIndicesPerVertexCountFromObjLine: requires a space somewhere after the payload start. The source's scan has no bound, and without a space it reads past the buffer.
- ObjLine.GetIndicesFromObjLine: requires the line to parse up to its '\n'. A round that converts nothing on a byte other than '/', ' ' and '\n' does not move the cursor. Examples are the CR of a CR-LF line end, the NUL after a last line without '\n', or a letter. The source loop then spins forever, storing a 0 in the next slot each time, so it writes past the index buffer. A failed conversion on a '/' does move on, storing 0 (`ObjLine.SlashStoresZero`, `FaceExamples.SlashFirstFace`).
- ObjLoad.LoadModelFromObjFile: requires every face line to parse and the first face to be countable, as above. It also requires the face integers to fit the index buffer. The source checks none of these. A face with more integers than the first face's corners account for writes past the buffer.
- ObjStatsPass.GetObjStats: requires the first face line to be countable, as for GetIndicesPerVertexCountFromObjLine.
- The counters of `ObjStats`, the write counters and the transition counters are C `int`. The model does not bound them, so overflow past 2^31 - 1 is not modelled.
- `calloc` failure (`ASSERT` at objviewer.cpp:1312-1321) is not modelled: allocation always succeeds.
- When the reader is exhausted, `ReadLine` returns a view with a null start. The model returns an empty view at the cursor. No caller reads through it.
- In the source, the seven `Keybind` records are members embedded in `Input`. The model keeps them as objects, and `Input.Valid` requires them to be distinct.
- A message is only its `wParam` and `lParam`. The message-type dispatch is part of the message pump, which is not modelled.

## Findings

| source | as written | input that shows it | evidently intended | confidence | as-written member | corrected member |
|---|---|---|---|---|---|---|
| objviewer.cpp:1309 | the index buffer is `calloc(1, faceCount * 3 * indicesPerVertexCount)`, a count of ints passed as a byte count | `v 0 0 0\nf 1 1 1\n`: three ints (12 bytes) are written into a 3-byte buffer | `faceCount * 3 * indicesPerVertexCount * sizeof(int)` bytes, one int per index field | not executed | ObjLoad.IndexCapacityAsWrittenOverrun | ObjLoad.TrianglesFillIndexCapacity |

The rest of the model allocates the intended capacity (`ObjLoad.IndexCapacity` in
`ObjLoad.AllocateObjData`).
