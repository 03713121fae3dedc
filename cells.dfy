/**
 * The shapes a cell of the record store can take, and the normalisations
 * feishu.ts applies to them. A rich-text cell is an array of fragments; a
 * link, attachment or option cell is an object with `.text`, `.link`,
 * `.url` or `.file_token`. Each reader below follows one of the
 * `typeof`/`Array.isArray` cascades of `parseTaskRecord`, including
 * JavaScript's truthiness and `String(x)`.
 */
module Cells {
  import opened Base

  datatype Cell =
    | Flag(b: bool)
    | Number(n: int)
    | Str(s: string)
    | List(items: seq<Cell>)
    | Obj(text: Option<string>, link: Option<string>, url: Option<string>, fileToken: Option<string>)

  /** JavaScript truthiness; arrays and objects are truthy even when empty. */
  predicate Truthy(c: Cell) {
    match c
    case Flag(b) => b
    case Number(n) => n != 0
    case Str(s) => s != ""
    case List(_) => true
    case Obj(_, _, _, _) => true
  }

  /** A field value as read from a record, `None` when the key is absent. */
  type Value = Option<Cell>

  /** `if (fields[k])`: the field is present and truthy. */
  predicate Filled(v: Value) {
    v.Some? && Truthy(v.value)
  }

  /** `String(c)`: arrays join their items with ",", objects print as "[object Object]". */
  function JsString(c: Cell): string
    decreases c
  {
    match c
    case Flag(b) => if b then "true" else "false"
    case Number(n) => IntToString(n)
    case Str(s) => s
    case List(items) => JoinWith(seq(|items|, i requires 0 <= i < |items| => JsString(items[i])), ",")
    case Obj(_, _, _, _) => "[object Object]"
  }

  /** One fragment of a rich-text array: `typeof item === "string" ? item : (item.text || "")`. */
  function FragmentText(item: Cell): string {
    match item
    case Str(s) => s
    case Obj(text, _, _, _) => text.GetOr("")
    case _ => ""
  }

  /** `items.map(FragmentText).join("")`. */
  function JoinFragments(items: seq<Cell>): string {
    Concat(seq(|items|, i requires 0 <= i < |items| => FragmentText(items[i])))
  }

  /** The prompt cell (feishu.ts:322-334): never fails, "" when nothing usable. */
  function PromptText(v: Value): string {
    if !Filled(v) then ""
    else match v.value
      case Str(s) => s
      case List(items) => JoinFragments(items)
      case Obj(text, _, _, _) => if Present(text) then text.value else ""
      case _ => ""
  }

  /** The character cell (feishu.ts:337-346): a string or a fragment array, else undefined. */
  function CharacterText(v: Value): Option<string> {
    if !Filled(v) then None
    else match v.value
      case Str(s) => Some(s)
      case List(items) => Some(JoinFragments(items))
      case _ => None
  }

  /** A URL cell (feishu.ts:349-374): the string itself or its `.link`, else undefined. */
  function LinkText(v: Value): Option<string> {
    if !Filled(v) then None
    else match v.value
      case Str(s) => Some(s)
      case Obj(_, link, _, _) => if Present(link) then link else None
      case _ => None
  }

  /** An attachment object or array item: `.url` before `.file_token`. */
  function AttachmentRef(c: Cell): Option<string> {
    match c
    case Obj(_, _, url, token) =>
      if Present(url) then url else if Present(token) then token else None
    case _ => None
  }

  /** The reference-image cell (feishu.ts:377-395). */
  function ImageRef(v: Value): Option<string> {
    if !Filled(v) then None
    else match v.value
      case Str(s) => Some(s)
      case List(items) =>
        if |items| > 0 then
          (match items[0] case Str(s) => Some(s) case other => AttachmentRef(other))
        else None
      case other => AttachmentRef(other)
  }

  /**
   * A single-select or text cell read with a default (feishu.ts:398-414):
   * a string as it is, otherwise `.text || String(cell)`.
   */
  function ScalarText(v: Value, default: string): string {
    if !Filled(v) then default
    else match v.value
      case Str(s) => s
      case Obj(text, _, _, _) => if Present(text) then text.value else JsString(v.value)
      case other => JsString(other)
  }

  /**
   * Of an attachment array only the first item counts, and of an attachment
   * object a non-empty `.url` wins over `.file_token`.
   */
  lemma ImageRefReadsFirstItemAndUrl(first: Cell, rest: seq<Cell>, other: seq<Cell>,
                                     text: Option<string>, link: Option<string>, url: string, token: Option<string>)
    requires url != ""
    ensures ImageRef(Some(List([first] + rest))) == ImageRef(Some(List([first] + other)))
    ensures ImageRef(Some(List([first] + rest))) == (if first.Str? then Some(first.s) else AttachmentRef(first))
    ensures ImageRef(Some(Obj(text, link, Some(url), token))) == Some(url)
    ensures ImageRef(Some(List([Obj(text, link, Some(url), token)] + rest))) == Some(url)
  {
    assert ([first] + rest)[0] == first;
    assert ([first] + other)[0] == first;
    assert ([Obj(text, link, Some(url), token)] + rest)[0] == Obj(text, link, Some(url), token);
  }
}
