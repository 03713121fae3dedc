/**
 * The record-store client of feishu.ts: the configuration check, the
 * tenant-token cache, the partial-update dictionary written by
 * `updateTaskStatus`, and the normalisation of a raw record into a task
 * (`parseModelName`, `parseTaskRecord`). Requests are replaced by the
 * replies they would get and `Date.now()` by a clock value `now` (ms).
 */
module Feishu {
  import opened Base
  import opened Cells

  /** The columns of the task table that the core reads or writes. */
  datatype Column =
    | PromptCol | CharacterCol | VideoUrlCol | WatermarkFreeCol | ImageUrlCol | SoraImageCol
    | ModelCol | TypeCol | StatusCol | GeneratedCol | TimeCol | ErrorCol

  /** The column names as the table spells them. */
  function ColumnName(c: Column): string {
    match c
    case PromptCol => "提示词"
    case CharacterCol => "角色"
    case VideoUrlCol => "视频URL"
    case WatermarkFreeCol => "无水印视频URL"
    case ImageUrlCol => "图片URL"
    case SoraImageCol => "Sora图片"
    case ModelCol => "模型"
    case TypeCol => "生成类型"
    case StatusCol => "生成状态"
    case GeneratedCol => "是否已生成"
    case TimeCol => "生成时间"
    case ErrorCol => "错误信息"
  }

  const DefaultModel := "sora-video-portrait-10s"
  const DefaultType := "视频生成"
  const PendingStatus := "待生成"
  const SuccessStatus := "成功"
  const FailedStatus := "失败"

  /** Seconds cut off the provider's token lifetime before the cache stops serving it. */
  const TokenMargin := 300

  // ---------------------------------------------------------------- model id

  /** A character of `[a-z0-9-]` under the `/i` flag. */
  predicate IdChar(c: char) {
    'a' <= c <= 'z' || 'A' <= c <= 'Z' || '0' <= c <= '9' || c == '-'
  }

  /** The end of the run of `IdChar`s that starts at `k`. */
  function IdRunEnd(s: string, k: nat): (e: nat)
    requires k <= |s|
    ensures k <= e <= |s|
    ensures forall i :: k <= i < e ==> IdChar(s[i])
    ensures e == |s| || !IdChar(s[e])
    decreases |s| - k
  {
    if k < |s| && IdChar(s[k]) then IdRunEnd(s, k + 1) else k
  }

  /** `/^(sora-[a-z0-9-]+)/i` matches at the start of `s`. */
  predicate HasSoraPrefix(s: string) {
    |s| > 5 && StartsWithIgnoreCase(s, "sora-") && IdChar(s[5])
  }

  /** A whole string of the shape `sora-[a-z0-9-]+`, case-insensitively. */
  predicate IsSoraId(s: string) {
    HasSoraPrefix(s) && forall i :: 5 <= i < |s| ==> IdChar(s[i])
  }

  /**
   * `parseModelName` (feishu.ts:285-300): the default for an empty field,
   * the longest `sora-…` prefix when there is one (dropping an annotation
   * such as "（竖屏10秒）"), and the string unchanged otherwise.
   */
  function ParseModelName(field: string): (r: string)
    ensures field == "" ==> r == DefaultModel
    ensures field != "" && HasSoraPrefix(field) ==>
      StartsWith(field, r) && IsSoraId(r) && (|r| == |field| || !IdChar(field[|r|]))
    ensures field != "" && !HasSoraPrefix(field) ==> r == field
  {
    if field == "" then DefaultModel
    else if HasSoraPrefix(field) then field[..IdRunEnd(field, 5)]
    else field
  }

  /** A whole model id is its own parse. */
  lemma SoraIdParsesToItself(s: string)
    requires IsSoraId(s)
    ensures ParseModelName(s) == s
  {
    assert IdRunEnd(s, 5) == |s|;
    assert s[..|s|] == s;
  }

  lemma DefaultModelIsSoraId()
    ensures IsSoraId(DefaultModel)
  {
    var d := DefaultModel;
    assert Lower(d[0]) == Lower('s') && Lower(d[1]) == Lower('o') && Lower(d[2]) == Lower('r');
    assert Lower(d[3]) == Lower('a') && Lower(d[4]) == Lower('-');
    assert StartsWithIgnoreCase(d, "sora-");
    forall i | 5 <= i < |d| ensures IdChar(d[i]) {
    }
  }

  /** Parsing a parsed model id changes nothing. */
  lemma ParseModelNameIdempotent(field: string)
    ensures ParseModelName(ParseModelName(field)) == ParseModelName(field)
  {
    var r := ParseModelName(field);
    if field == "" {
      DefaultModelIsSoraId();
      SoraIdParsesToItself(r);
    } else if HasSoraPrefix(field) {
      SoraIdParsesToItself(r);
    }
  }

  // ---------------------------------------------------------------- records

  /**
   * A raw record: its id and the cells of the columns above (columns the
   * core never reads are left out; a record without `fields` has none).
   */
  datatype Record = Record(recordId: string, fields: map<Column, Cell>)

  /** `fields[c]`, `None` when the column is absent. */
  function Field(f: map<Column, Cell>, c: Column): Value {
    if c in f then Some(f[c]) else None
  }

  /** The flat task `parseTaskRecord` returns. */
  datatype Task = Task(
    recordId: string,
    prompt: string,
    character: Option<string>,
    model: string,
    modelDisplay: string,
    generationType: string,
    soraImage: Option<string>,
    status: string,
    isGenerated: bool,
    createdTime: Option<Cell>,
    videoUrl: Option<string>,
    watermarkFreeUrl: Option<string>,
    imageUrl: Option<string>,
    error: Cell)

  /** `parseTaskRecord` (feishu.ts:303-432). */
  function ParseTaskRecord(rec: Record): Task {
    var f := rec.fields;
    var modelDisplay := ScalarText(Field(f, ModelCol), DefaultModel);
    Task(
      rec.recordId,
      PromptText(Field(f, PromptCol)),
      CharacterText(Field(f, CharacterCol)),
      ParseModelName(modelDisplay),
      modelDisplay,
      ScalarText(Field(f, TypeCol), DefaultType),
      ImageRef(Field(f, SoraImageCol)),
      ScalarText(Field(f, StatusCol), PendingStatus),
      Filled(Field(f, GeneratedCol)),
      if Filled(Field(f, TimeCol)) then Field(f, TimeCol) else None,
      LinkText(Field(f, VideoUrlCol)),
      LinkText(Field(f, WatermarkFreeCol)),
      LinkText(Field(f, ImageUrlCol)),
      if Filled(Field(f, ErrorCol)) then f[ErrorCol] else Str(""))
  }

  /** The fixed defaults of a task whose cells are all absent or falsy. */
  lemma ParseDefaults(rec: Record)
    requires forall c :: c in rec.fields ==> !Truthy(rec.fields[c])
    ensures ParseTaskRecord(rec) == Task(rec.recordId, "", None, DefaultModel, DefaultModel,
      DefaultType, None, PendingStatus, false, None, None, None, None, Str(""))
  {
    forall c ensures !Filled(Field(rec.fields, c)) { }
    DefaultModelIsSoraId();
    SoraIdParsesToItself(DefaultModel);
    ParseFromCells(rec, Task(rec.recordId, "", None, DefaultModel, DefaultModel,
      DefaultType, None, PendingStatus, false, None, None, None, None, Str("")));
  }

  /**
   * Defaults per field: each column that is absent or falsy reads as its
   * default whatever the other columns hold.
   */
  lemma FieldDefaults(rec: Record)
    ensures var f, t := rec.fields, ParseTaskRecord(rec);
      (!Filled(Field(f, PromptCol)) ==> t.prompt == "") &&
      (!Filled(Field(f, CharacterCol)) ==> t.character == None) &&
      (!Filled(Field(f, TypeCol)) ==> t.generationType == DefaultType) &&
      (!Filled(Field(f, SoraImageCol)) ==> t.soraImage == None) &&
      (!Filled(Field(f, StatusCol)) ==> t.status == PendingStatus) &&
      (!Filled(Field(f, GeneratedCol)) ==> !t.isGenerated) &&
      (!Filled(Field(f, TimeCol)) ==> t.createdTime == None) &&
      (!Filled(Field(f, VideoUrlCol)) ==> t.videoUrl == None) &&
      (!Filled(Field(f, WatermarkFreeCol)) ==> t.watermarkFreeUrl == None) &&
      (!Filled(Field(f, ImageUrlCol)) ==> t.imageUrl == None) &&
      (!Filled(Field(f, ErrorCol)) ==> t.error == Str(""))
  {
  }

  /** An absent or falsy model cell gives the default model, as display name and as id. */
  lemma ModelDefault(rec: Record)
    requires !Filled(Field(rec.fields, ModelCol))
    ensures ParseTaskRecord(rec).modelDisplay == DefaultModel
    ensures ParseTaskRecord(rec).model == DefaultModel
  {
    DefaultModelIsSoraId();
    SoraIdParsesToItself(DefaultModel);
  }

  /**
   * A prompt given as fragments is their concatenation: a string item is
   * itself, an object item (a plain or a link fragment) its `.text` or "",
   * and any other item "".
   */
  lemma {:induction false} FragmentsConcatenate(items: seq<Cell>, parts: seq<string>)
    requires |items| == |parts|
    requires forall i :: 0 <= i < |items| ==>
      items[i] == Str(parts[i]) ||
      (items[i].Obj? && items[i].text.GetOr("") == parts[i]) ||
      (!items[i].Str? && !items[i].Obj? && parts[i] == "")
    ensures PromptText(Some(List(items))) == Concat(parts)
  {
    var texts := seq(|items|, i requires 0 <= i < |items| => FragmentText(items[i]));
    forall i | 0 <= i < |items| ensures texts[i] == parts[i] {
      match items[i]
      case Str(_) =>
      case Obj(_, _, _, _) =>
      case _ =>
    }
    assert texts == parts;
  }

  /** How a task field is written into a raw cell, for the round trip below. */
  datatype Shape = Plain | Fragments | Rich

  function TextCell(s: string, shape: Shape): Cell {
    match shape
    case Plain => Str(s)
    case Fragments => List([Str(s)])
    case Rich => Obj(Some(s), None, None, None)
  }

  function LinkCell(s: string, shape: Shape): Cell {
    if shape == Plain then Str(s) else Obj(None, Some(s), None, None)
  }

  function ImageCell(s: string, shape: Shape): Cell {
    match shape
    case Plain => Str(s)
    case Fragments => List([Str(s)])
    case Rich => Obj(None, None, Some(s), None)
  }

  function OptCell(v: Option<string>, cell: string -> Cell): Value {
    if v.Some? then Some(cell(v.value)) else None
  }

  /** A raw record whose cells hold the task's values in the given shape. */
  function RawRecord(t: Task, shape: Shape): Record {
    var characterShape := if shape == Rich then Fragments else shape;
    var cells := map c | c in AllColumns() && RawCell(t, shape, characterShape, c).Some?
      :: RawCell(t, shape, characterShape, c).value;
    Record(t.recordId, cells)
  }

  function AllColumns(): set<Column> {
    {PromptCol, CharacterCol, VideoUrlCol, WatermarkFreeCol, ImageUrlCol, SoraImageCol,
     ModelCol, TypeCol, StatusCol, GeneratedCol, TimeCol, ErrorCol}
  }

  lemma InAllColumns(c: Column)
    ensures c in AllColumns()
  {
    match c
    case PromptCol => case CharacterCol => case VideoUrlCol => case WatermarkFreeCol =>
    case ImageUrlCol => case SoraImageCol => case ModelCol => case TypeCol =>
    case StatusCol => case GeneratedCol => case TimeCol => case ErrorCol =>
  }

  function RawCell(t: Task, shape: Shape, characterShape: Shape, c: Column): Value {
    match c
    case PromptCol => Some(TextCell(t.prompt, shape))
    case CharacterCol => OptCell(t.character, s => TextCell(s, characterShape))
    case VideoUrlCol => OptCell(t.videoUrl, s => LinkCell(s, shape))
    case WatermarkFreeCol => OptCell(t.watermarkFreeUrl, s => LinkCell(s, shape))
    case ImageUrlCol => OptCell(t.imageUrl, s => LinkCell(s, shape))
    case SoraImageCol => OptCell(t.soraImage, s => ImageCell(s, shape))
    case ModelCol => Some(TextCell(t.modelDisplay, shape))
    case TypeCol => Some(TextCell(t.generationType, shape))
    case StatusCol => Some(TextCell(t.status, shape))
    case GeneratedCol => Some(Flag(t.isGenerated))
    case TimeCol => t.createdTime
    case ErrorCol => Some(t.error)
  }

  /** The tasks `parseTaskRecord` can return: its defaults are never blank. */
  predicate Canonical(t: Task) {
    (t.character.Some? ==> t.character.value != "") &&
    (t.soraImage.Some? ==> t.soraImage.value != "") &&
    (t.videoUrl.Some? ==> t.videoUrl.value != "") &&
    (t.watermarkFreeUrl.Some? ==> t.watermarkFreeUrl.value != "") &&
    (t.imageUrl.Some? ==> t.imageUrl.value != "") &&
    t.modelDisplay != "" && t.model == ParseModelName(t.modelDisplay) &&
    t.generationType != "" && t.status != "" &&
    (t.createdTime.Some? ==> Truthy(t.createdTime.value)) &&
    (Truthy(t.error) || t.error == Str(""))
  }

  lemma ScalarOfTextCell(s: string, shape: Shape, default: string)
    requires s != ""
    ensures ScalarText(Some(TextCell(s, shape)), default) == s
  {
    if shape == Fragments {
      assert seq(1, i requires 0 <= i < 1 => JsString([Str(s)][i])) == [s];
    }
  }

  lemma JoinOneFragment(s: string)
    ensures JoinFragments([Str(s)]) == s
  {
    assert seq(1, i requires 0 <= i < 1 => FragmentText([Str(s)][i])) == [s];
    assert Concat([s]) == Concat([]) + s;
  }

  /**
   * Writing a task into a record, with every cell as a plain string, as a
   * fragment array or as an object, and parsing it again gives the task back.
   */
  lemma ParseRawRecord(t: Task, shape: Shape)
    requires Canonical(t)
    ensures ParseTaskRecord(RawRecord(t, shape)) == t
  {
    var rec := RawRecord(t, shape);
    RawTextCells(t, shape);
    RawLinkCells(t, shape);
    RawRestCells(t, shape);
    ParseFromCells(rec, t);
  }

  lemma RawTextCells(t: Task, shape: Shape)
    requires Canonical(t)
    ensures var f := RawRecord(t, shape).fields;
      PromptText(Field(f, PromptCol)) == t.prompt &&
      CharacterText(Field(f, CharacterCol)) == t.character &&
      ScalarText(Field(f, ModelCol), DefaultModel) == t.modelDisplay &&
      ScalarText(Field(f, TypeCol), DefaultType) == t.generationType &&
      ScalarText(Field(f, StatusCol), PendingStatus) == t.status
  {
    RawField(t, shape, PromptCol);
    RawField(t, shape, CharacterCol);
    RawField(t, shape, ModelCol);
    RawField(t, shape, TypeCol);
    RawField(t, shape, StatusCol);
    PromptCellReadsBack(t.prompt, shape);
    CharacterCellReadsBack(t.character, if shape == Rich then Fragments else shape);
    ScalarOfTextCell(t.modelDisplay, shape, DefaultModel);
    ScalarOfTextCell(t.generationType, shape, DefaultType);
    ScalarOfTextCell(t.status, shape, PendingStatus);
  }

  lemma RawLinkCells(t: Task, shape: Shape)
    requires Canonical(t)
    ensures var f := RawRecord(t, shape).fields;
      ImageRef(Field(f, SoraImageCol)) == t.soraImage &&
      LinkText(Field(f, VideoUrlCol)) == t.videoUrl &&
      LinkText(Field(f, WatermarkFreeCol)) == t.watermarkFreeUrl &&
      LinkText(Field(f, ImageUrlCol)) == t.imageUrl
  {
    RawField(t, shape, VideoUrlCol);
    RawField(t, shape, WatermarkFreeCol);
    RawField(t, shape, ImageUrlCol);
    RawField(t, shape, SoraImageCol);
    LinkCellReadsBack(t.videoUrl, shape);
    LinkCellReadsBack(t.watermarkFreeUrl, shape);
    LinkCellReadsBack(t.imageUrl, shape);
    ImageCellReadsBack(t.soraImage, shape);
  }

  lemma RawRestCells(t: Task, shape: Shape)
    requires Canonical(t)
    ensures var f := RawRecord(t, shape).fields;
      Filled(Field(f, GeneratedCol)) == t.isGenerated &&
      (if Filled(Field(f, TimeCol)) then Field(f, TimeCol) else None) == t.createdTime &&
      (if Filled(Field(f, ErrorCol)) then f[ErrorCol] else Str("")) == t.error
  {
    RawField(t, shape, GeneratedCol);
    RawField(t, shape, TimeCol);
    RawField(t, shape, ErrorCol);
  }

  /** The task `parseTaskRecord` builds, given what each of its readers returns. */
  lemma ParseFromCells(rec: Record, t: Task)
    requires var f := rec.fields;
      rec.recordId == t.recordId &&
      PromptText(Field(f, PromptCol)) == t.prompt &&
      CharacterText(Field(f, CharacterCol)) == t.character &&
      ScalarText(Field(f, ModelCol), DefaultModel) == t.modelDisplay &&
      t.model == ParseModelName(t.modelDisplay) &&
      ScalarText(Field(f, TypeCol), DefaultType) == t.generationType &&
      ImageRef(Field(f, SoraImageCol)) == t.soraImage &&
      ScalarText(Field(f, StatusCol), PendingStatus) == t.status &&
      Filled(Field(f, GeneratedCol)) == t.isGenerated &&
      (if Filled(Field(f, TimeCol)) then Field(f, TimeCol) else None) == t.createdTime &&
      LinkText(Field(f, VideoUrlCol)) == t.videoUrl &&
      LinkText(Field(f, WatermarkFreeCol)) == t.watermarkFreeUrl &&
      LinkText(Field(f, ImageUrlCol)) == t.imageUrl &&
      (if Filled(Field(f, ErrorCol)) then f[ErrorCol] else Str("")) == t.error
    ensures ParseTaskRecord(rec) == t
  {
  }

  lemma RawField(t: Task, shape: Shape, c: Column)
    ensures Field(RawRecord(t, shape).fields, c) ==
      RawCell(t, shape, if shape == Rich then Fragments else shape, c)
  {
    InAllColumns(c);
  }

  lemma PromptCellReadsBack(s: string, shape: Shape)
    ensures PromptText(Some(TextCell(s, shape))) == s
  {
    JoinOneFragment(s);
  }

  lemma CharacterCellReadsBack(v: Option<string>, shape: Shape)
    requires shape != Rich && (v.Some? ==> v.value != "")
    ensures CharacterText(OptCell(v, s => TextCell(s, shape))) == v
  {
    if v.Some? { JoinOneFragment(v.value); }
  }

  lemma LinkCellReadsBack(v: Option<string>, shape: Shape)
    requires v.Some? ==> v.value != ""
    ensures LinkText(OptCell(v, s => LinkCell(s, shape))) == v
  {
  }

  lemma ImageCellReadsBack(v: Option<string>, shape: Shape)
    requires v.Some? ==> v.value != ""
    ensures ImageRef(OptCell(v, s => ImageCell(s, shape))) == v
  {
  }

  // ---------------------------------------------------------------- write-back

  /** A `{link, text}` pair, the form the store wants for URL columns. */
  datatype Link = Link(link: string, text: string)

  /**
   * The partial-update dictionary of `updateTaskStatus`. Its keys are fixed
   * columns, so it is a record whose optional slots are the keys that may
   * be missing; the status and the generated flag are always written.
   */
  datatype StatusUpdate = StatusUpdate(
    status: string,
    isGenerated: bool,
    videoUrl: Option<Link>,
    watermarkFreeUrl: Option<Link>,
    imageUrl: Option<Link>,
    generatedAt: Option<int>,
    error: Option<string>)

  /** The URL that goes into the video slot: the Drive copy first. */
  function VideoSlot(videoUrl: Option<string>, googleDriveUrl: Option<string>): Option<string> {
    if Present(googleDriveUrl) then googleDriveUrl
    else if Present(videoUrl) then videoUrl
    else None
  }

  /** The dictionary `updateTaskStatus` sends, as one value. */
  function StatusFields(status: string, videoUrl: Option<string>, imageUrl: Option<string>,
                        error: Option<string>, watermarkFreeUrl: Option<string>,
                        googleDriveUrl: Option<string>, now: int): StatusUpdate
  {
    var success := status == SuccessStatus;
    var video := VideoSlot(videoUrl, googleDriveUrl);
    StatusUpdate(
      status, success,
      if success && video.Some? then Some(Link(video.value, "查看视频")) else None,
      if success && Present(watermarkFreeUrl) then Some(Link(watermarkFreeUrl.value, "无水印视频")) else None,
      if success && Present(imageUrl) then Some(Link(imageUrl.value, "查看图片")) else None,
      if success then Some(now) else None,
      if status == FailedStatus && Present(error) then error else None)
  }

  /**
   * Builds the dictionary step by step under the status conditions
   * (feishu.ts:219-258): URLs and the completion time only on success,
   * the error only on failure.
   */
  method BuildStatusFields(status: string, videoUrl: Option<string>, imageUrl: Option<string>,
                           error: Option<string>, watermarkFreeUrl: Option<string>,
                           googleDriveUrl: Option<string>, now: int)
    returns (fields: StatusUpdate)
    ensures fields.status == status && fields.isGenerated == (status == SuccessStatus)
    ensures fields.videoUrl.Some? <==> status == SuccessStatus && (Present(googleDriveUrl) || Present(videoUrl))
    ensures fields.videoUrl.Some? ==> fields.videoUrl == Some(Link(VideoSlot(videoUrl, googleDriveUrl).value, "查看视频"))
    ensures fields.watermarkFreeUrl ==
      (if status == SuccessStatus && Present(watermarkFreeUrl) then Some(Link(watermarkFreeUrl.value, "无水印视频")) else None)
    ensures fields.imageUrl ==
      (if status == SuccessStatus && Present(imageUrl) then Some(Link(imageUrl.value, "查看图片")) else None)
    ensures fields.generatedAt == (if status == SuccessStatus then Some(now) else None)
    ensures fields.error == (if status == FailedStatus && Present(error) then error else None)
    ensures fields == StatusFields(status, videoUrl, imageUrl, error, watermarkFreeUrl, googleDriveUrl, now)
  {
    fields := StatusUpdate(status, status == SuccessStatus, None, None, None, None, None);
    if status == SuccessStatus {
      if Present(googleDriveUrl) {
        fields := fields.(videoUrl := Some(Link(googleDriveUrl.value, "查看视频")));
      } else if Present(videoUrl) {
        fields := fields.(videoUrl := Some(Link(videoUrl.value, "查看视频")));
      }
      if Present(watermarkFreeUrl) {
        fields := fields.(watermarkFreeUrl := Some(Link(watermarkFreeUrl.value, "无水印视频")));
      }
      if Present(imageUrl) {
        fields := fields.(imageUrl := Some(Link(imageUrl.value, "查看图片")));
      }
      fields := fields.(generatedAt := Some(now));
    }
    if status == FailedStatus && Present(error) {
      fields := fields.(error := error);
    }
  }

  /** How the store keeps a written link: a `{text, link}` object. */
  function LinkValue(l: Option<Link>): Value {
    if l.Some? then Some(Obj(Some(l.value.text), Some(l.value.link), None, None)) else None
  }

  /** The cell the update writes into column `c`, `None` when it leaves `c` alone. */
  function UpdateCell(u: StatusUpdate, c: Column): Value {
    match c
    case StatusCol => Some(Str(u.status))
    case GeneratedCol => Some(Flag(u.isGenerated))
    case VideoUrlCol => LinkValue(u.videoUrl)
    case WatermarkFreeCol => LinkValue(u.watermarkFreeUrl)
    case ImageUrlCol => LinkValue(u.imageUrl)
    case TimeCol => if u.generatedAt.Some? then Some(Number(u.generatedAt.value)) else None
    case ErrorCol => if u.error.Some? then Some(Str(u.error.value)) else None
    case _ => None
  }

  /** The store's partial update: written columns replace, the others stay. */
  function ApplyUpdate(rec: Record, u: StatusUpdate): Record {
    Record(rec.recordId, rec.fields + map c | c in AllColumns() && UpdateCell(u, c).Some? :: UpdateCell(u, c).value)
  }

  /** The published shape of the dictionary: every write says whether the task is done. */
  predicate WellFormed(u: StatusUpdate) {
    u.isGenerated == (u.status == SuccessStatus) &&
    (u.status != SuccessStatus ==> u.videoUrl == u.watermarkFreeUrl == u.imageUrl == None && u.generatedAt == None) &&
    (u.error.Some? ==> u.status == FailedStatus && u.error.value != "") &&
    (u.videoUrl.Some? ==> u.videoUrl.value.link != "") &&
    (u.watermarkFreeUrl.Some? ==> u.watermarkFreeUrl.value.link != "") &&
    (u.imageUrl.Some? ==> u.imageUrl.value.link != "")
  }

  /**
   * Reading a record back after a status update: `isGenerated` agrees with
   * the status, and the status read back is the one written (an empty one
   * reads as the default).
   */
  lemma UpdateThenParseStatus(rec: Record, u: StatusUpdate)
    requires WellFormed(u)
    ensures var after := ParseTaskRecord(ApplyUpdate(rec, u));
      (after.isGenerated <==> after.status == SuccessStatus) &&
      after.status == (if u.status != "" then u.status else PendingStatus)
  {
    var f := ApplyUpdate(rec, u).fields;
    FieldAfterUpdate(rec, u, StatusCol);
    FieldAfterUpdate(rec, u, GeneratedCol);
    assert Field(f, StatusCol) == Some(Str(u.status));
    assert Field(f, GeneratedCol) == Some(Flag(u.isGenerated));
  }

  /** The URLs read back are the ones written. */
  lemma UpdateThenParseUrls(rec: Record, u: StatusUpdate)
    requires WellFormed(u)
    ensures var after := ParseTaskRecord(ApplyUpdate(rec, u));
      (u.videoUrl.Some? ==> after.videoUrl == Some(u.videoUrl.value.link)) &&
      (u.watermarkFreeUrl.Some? ==> after.watermarkFreeUrl == Some(u.watermarkFreeUrl.value.link)) &&
      (u.imageUrl.Some? ==> after.imageUrl == Some(u.imageUrl.value.link))
  {
    FieldAfterUpdate(rec, u, VideoUrlCol);
    FieldAfterUpdate(rec, u, WatermarkFreeCol);
    FieldAfterUpdate(rec, u, ImageUrlCol);
    LinkReadsBack(u.videoUrl);
    LinkReadsBack(u.watermarkFreeUrl);
    LinkReadsBack(u.imageUrl);
  }

  /** The error message read back is the one written. */
  lemma UpdateThenParseError(rec: Record, u: StatusUpdate)
    requires WellFormed(u) && u.error.Some?
    ensures ParseTaskRecord(ApplyUpdate(rec, u)).error == Str(u.error.value)
  {
    var f := ApplyUpdate(rec, u).fields;
    FieldAfterUpdate(rec, u, ErrorCol);
    assert ErrorCol in f && f[ErrorCol] == Str(u.error.value);
  }

  lemma LinkReadsBack(l: Option<Link>)
    requires l.Some? ==> l.value.link != ""
    ensures l.Some? ==> LinkText(LinkValue(l)) == Some(l.value.link)
  {
  }

  /**
   * Every column the update leaves out reads as before: the prompt, the
   * character, the model and the reference image always, and the URLs of
   * a run that did not succeed.
   */
  lemma UpdateKeepsUnwritten(rec: Record, u: StatusUpdate)
    ensures var before, after := ParseTaskRecord(rec), ParseTaskRecord(ApplyUpdate(rec, u));
      after.prompt == before.prompt && after.character == before.character &&
      after.model == before.model && after.soraImage == before.soraImage &&
      after.generationType == before.generationType &&
      (u.videoUrl.None? ==> after.videoUrl == before.videoUrl) &&
      (u.watermarkFreeUrl.None? ==> after.watermarkFreeUrl == before.watermarkFreeUrl) &&
      (u.imageUrl.None? ==> after.imageUrl == before.imageUrl)
  {
    FieldAfterUpdate(rec, u, PromptCol);
    FieldAfterUpdate(rec, u, CharacterCol);
    FieldAfterUpdate(rec, u, ModelCol);
    FieldAfterUpdate(rec, u, SoraImageCol);
    FieldAfterUpdate(rec, u, TypeCol);
    FieldAfterUpdate(rec, u, VideoUrlCol);
    FieldAfterUpdate(rec, u, WatermarkFreeCol);
    FieldAfterUpdate(rec, u, ImageUrlCol);
  }

  lemma FieldAfterUpdate(rec: Record, u: StatusUpdate, c: Column)
    ensures Field(ApplyUpdate(rec, u).fields, c) ==
      if UpdateCell(u, c).Some? then UpdateCell(u, c) else Field(rec.fields, c)
  {
    InAllColumns(c);
  }

  /** Every dictionary `updateTaskStatus` can send is well formed. */
  lemma StatusFieldsWellFormed(status: string, videoUrl: Option<string>, imageUrl: Option<string>,
                               error: Option<string>, watermarkFreeUrl: Option<string>,
                               googleDriveUrl: Option<string>, now: int)
    ensures WellFormed(StatusFields(status, videoUrl, imageUrl, error, watermarkFreeUrl, googleDriveUrl, now))
  {
  }

  // ---------------------------------------------------------------- token cache

  /** The two fields of the token cache; `None` is the initial `null`. */
  datatype TokenCache = TokenCache(accessToken: Option<string>, expireTime: int)

  /** The reply of the token endpoint. */
  datatype TokenReply = TokenReply(code: int, msg: string, tenantAccessToken: string, expire: int)

  /** What one `getTenantAccessToken` call returns, leaves in the cache, and whether it asked. */
  datatype TokenCall = TokenCall(result: Result<string>, cache: TokenCache, fetched: bool)

  /** The cache check of feishu.ts:47: a truthy token that has not expired. */
  predicate Serves(c: TokenCache, now: int) {
    Present(c.accessToken) && now < c.expireTime
  }

  /** The expiry a refresh received at `received` records: the lifetime minus the margin, in ms. */
  function ExpiryAfter(received: int, expire: int): int {
    received + (expire - TokenMargin) * 1000
  }

  /**
   * `getTenantAccessToken` (feishu.ts:45-81) as a function of the cache and
   * the clock: `now` is the `Date.now()` of the cache check (feishu.ts:47),
   * `received` the one read once the reply is in (feishu.ts:77).
   */
  function AcquireToken(c: TokenCache, now: int, reply: TokenReply, received: int): TokenCall {
    if Serves(c, now) then TokenCall(Ok(c.accessToken.value), c, false)
    else if reply.code != 0 then TokenCall(Err("获取飞书 token 失败: " + reply.msg), c, true)
    else
      TokenCall(Ok(reply.tenantAccessToken),
                TokenCache(Some(reply.tenantAccessToken), ExpiryAfter(received, reply.expire)), true)
  }

  /**
   * A token received at `r0` is served from the cache, without a request,
   * to every call before `r0 + (expire - 300) * 1000`, and to none after.
   */
  lemma RefreshedTokenReused(c: TokenCache, t0: int, reply: TokenReply, r0: int,
                             t1: int, later: TokenReply, r1: int)
    requires !Serves(c, t0) && reply.code == 0 && reply.tenantAccessToken != ""
    ensures var first := AcquireToken(c, t0, reply, r0);
      first.result == Ok(reply.tenantAccessToken) && first.fetched &&
      first.cache.expireTime == r0 + (reply.expire - 300) * 1000 &&
      var second := AcquireToken(first.cache, t1, later, r1);
      (t1 < first.cache.expireTime ==>
        second.result == Ok(reply.tenantAccessToken) && !second.fetched && second.cache == first.cache) &&
      (t1 >= first.cache.expireTime ==> second.fetched)
  {
  }

  /**
   * The safety margin: a refreshed token is never served at or after 300
   * seconds before the end of the lifetime the provider gave it, counted
   * from when the reply was received.
   */
  lemma CachedTokenKeepsMargin(c: TokenCache, t0: int, reply: TokenReply, r0: int,
                               t1: int, later: TokenReply, r1: int)
    requires !Serves(c, t0) && reply.code == 0
    requires !AcquireToken(AcquireToken(c, t0, reply, r0).cache, t1, later, r1).fetched
    ensures t1 < r0 + reply.expire * 1000 - TokenMargin * 1000
  {
  }

  /** A refused refresh throws, keeps the cache, and so the next call asks again. */
  lemma FailedRefreshKeepsCache(c: TokenCache, t0: int, reply: TokenReply, r0: int,
                                t1: int, later: TokenReply, r1: int)
    requires !Serves(c, t0) && reply.code != 0 && t0 <= t1
    ensures var first := AcquireToken(c, t0, reply, r0);
      first.result.Err? && first.cache == c && first.fetched &&
      AcquireToken(first.cache, t1, later, r1).fetched
  {
  }

  /** The store connection: configuration and the token cache, updated in place. */
  class FeishuService {
    var appId: string
    var appSecret: string
    var appToken: string
    var tableId: string
    var accessToken: Option<string>
    var tokenExpireTime: int

    /** The four settings come from the environment; missing ones are "". */
    constructor (appId: string, appSecret: string, appToken: string, tableId: string)
      ensures this.appId == appId && this.appSecret == appSecret
      ensures this.appToken == appToken && this.tableId == tableId
      ensures accessToken == None && tokenExpireTime == 0
    {
      this.appId := appId;
      this.appSecret := appSecret;
      this.appToken := appToken;
      this.tableId := tableId;
      accessToken := None;
      tokenExpireTime := 0;
    }

    /** `isConfigured` (feishu.ts:27-31): none of the four settings is empty. */
    predicate IsConfigured()
      reads this
      ensures IsConfigured() <==> "" !in {appId, appSecret, appToken, tableId}
    {
      appId != "" && appSecret != "" && appToken != "" && tableId != ""
    }

    function Cache(): TokenCache
      reads this
    {
      TokenCache(accessToken, tokenExpireTime)
    }

    /**
     * `getTenantAccessToken`: serve the cached token or ask for a new one
     * (`reply` is what the endpoint would answer and `received` the clock
     * once it has arrived; both are only read when `fetched`).
     */
    method GetTenantAccessToken(now: int, reply: TokenReply, received: int)
      returns (token: Result<string>, fetched: bool)
      modifies this`accessToken, this`tokenExpireTime
      ensures TokenCall(token, Cache(), fetched) == AcquireToken(old(Cache()), now, reply, received)
    {
      if accessToken.Some? && accessToken.value != "" && now < tokenExpireTime {
        return Ok(accessToken.value), false;
      }
      fetched := true;
      if reply.code != 0 {
        return Err("获取飞书 token 失败: " + reply.msg), fetched;
      }
      accessToken := Some(reply.tenantAccessToken);
      tokenExpireTime := received + (reply.expire - TokenMargin) * 1000;
      token := Ok(reply.tenantAccessToken);
    }

    /**
     * `updateTaskStatus` (feishu.ts:208-282): get a token, build the
     * dictionary, send it. `sent` is the dictionary when one was sent;
     * `writeCode`/`writeMsg` are the store's reply to it. The three clock
     * reads are three values: the token check `checkedAt`, the token's
     * arrival `receivedAt`, and `now` for the completion time.
     */
    method UpdateTaskStatus(status: string, videoUrl: Option<string>, imageUrl: Option<string>,
                            error: Option<string>, watermarkFreeUrl: Option<string>,
                            googleDriveUrl: Option<string>, checkedAt: int, receivedAt: int, now: int,
                            tokenReply: TokenReply, writeCode: int, writeMsg: string)
      returns (outcome: Outcome, sent: Option<StatusUpdate>)
      modifies this`accessToken, this`tokenExpireTime
      ensures var call := AcquireToken(old(Cache()), checkedAt, tokenReply, receivedAt);
        Cache() == call.cache &&
        (call.result.Err? ==> sent == None && outcome == Fail(call.result.message)) &&
        (call.result.Ok? ==>
          sent == Some(StatusFields(status, videoUrl, imageUrl, error, watermarkFreeUrl, googleDriveUrl, now)) &&
          outcome == (if writeCode != 0 then Fail("更新任务状态失败: " + writeMsg) else Pass))
    {
      var token, _ := GetTenantAccessToken(checkedAt, tokenReply, receivedAt);
      if token.Err? {
        return Fail(token.message), None;
      }
      var fields := BuildStatusFields(status, videoUrl, imageUrl, error, watermarkFreeUrl, googleDriveUrl, now);
      sent := Some(fields);
      if writeCode != 0 {
        outcome := Fail("更新任务状态失败: " + writeMsg);
      } else {
        outcome := Pass;
      }
    }
  }
}
