/**
 * News records and the pieces of form handling both news pages share:
 * the edit copy of a record (`{ ...item, imageUrl: item.images?.[0] || '' }`),
 * the form state built from it, and `String.prototype.trim`.
 */
module News {
  import opened Wrappers

  datatype Author = Author(id: int, firstName: string, lastName: string)

  /** A news record as the backend returns it; absent fields are `None`. */
  datatype NewsItem = NewsItem(
    id: int,
    title: string,
    content: string,
    images: Option<seq<string>>,
    authorId: Option<int>,
    author: Option<Author>)

  /** The news form's state `{ title, imageUrl, content }`. */
  datatype NewsForm = NewsForm(title: string, imageUrl: string, content: string)

  /** A JSON request body; `images == None` leaves the key out. */
  datatype NewsBody = NewsBody(title: string, content: string, images: Option<seq<string>>)

  /** A record spread into a new object with an extra `imageUrl` field. */
  datatype EditDraft = EditDraft(item: NewsItem, imageUrl: string)

  /** `item.images?.[0] || ''`: the first image, or `''` when there is none. */
  function EditCopy(item: NewsItem): (d: EditDraft)
    ensures d.item == item
    ensures item.images.Some? && |item.images.value| > 0 ==> d.imageUrl == item.images.value[0]
    ensures item.images.None? || item.images.value == [] ==> d.imageUrl == ""
  {
    var first := if item.images.Some? && |item.images.value| > 0 then item.images.value[0] else "";
    EditDraft(item, first)
  }

  /**
   * The form's initial state from its optional `initialData`: each field
   * of the draft, or `''` when falsy; the create form, given no data,
   * starts empty.
   */
  function InitialForm(d: Option<EditDraft>): (f: NewsForm)
    ensures d.None? ==> f == NewsForm("", "", "")
    ensures d.Some? ==> f.title == d.value.item.title && f.content == d.value.item.content
    ensures d.Some? ==> f.imageUrl == d.value.imageUrl
  {
    // `x || ''` is `x` for every string, the empty one included
    if d.None? then NewsForm("", "", "")
    else NewsForm(d.value.item.title, d.value.imageUrl, d.value.item.content)
  }

  /** The characters `trim` removes: ECMAScript WhiteSpace and LineTerminator. */
  predicate IsSpace(c: char)
  {
    var n := c as int;
    || n == 0x09 || n == 0x0A || n == 0x0B || n == 0x0C || n == 0x0D || n == 0x20
    || n == 0xA0 || n == 0x1680 || (0x2000 <= n <= 0x200A)
    || n == 0x2028 || n == 0x2029 || n == 0x202F || n == 0x205F || n == 0x3000 || n == 0xFEFF
  }

  /** Every character of `s` is whitespace (the empty string included). */
  predicate Blank(s: string)
  {
    forall i :: 0 <= i < |s| ==> IsSpace(s[i])
  }

  /** The number of whitespace characters `s` starts with. */
  function Leading(s: string): (n: nat)
    ensures n <= |s|
    ensures forall i :: 0 <= i < n ==> IsSpace(s[i])
    ensures n < |s| ==> !IsSpace(s[n])
  {
    if s == "" || !IsSpace(s[0]) then 0 else 1 + Leading(s[1..])
  }

  /** The number of whitespace characters `s` ends with. */
  function Trailing(s: string): (n: nat)
    ensures n <= |s|
    ensures forall i :: |s| - n <= i < |s| ==> IsSpace(s[i])
    ensures n < |s| ==> !IsSpace(s[|s| - n - 1])
  {
    if s == "" || !IsSpace(s[|s| - 1]) then 0 else 1 + Trailing(s[..|s| - 1])
  }

  /**
   * `s.trim()`: `s` without its leading and trailing whitespace. It is
   * empty exactly when `s` is all whitespace, and otherwise neither starts
   * nor ends with whitespace.
   */
  function Trim(s: string): (r: string)
    ensures r == "" <==> Blank(s)
    ensures r != "" ==> !IsSpace(r[0]) && !IsSpace(r[|r| - 1])
    ensures r != "" ==> Leading(s) + Trailing(s) < |s| && r == s[Leading(s)..|s| - Trailing(s)]
  {
    var lead := Leading(s);
    if lead == |s| then "" else s[lead..|s| - Trailing(s)]
  }

  /** Trimming twice is trimming once. */
  lemma TrimIsIdempotent(s: string)
    ensures Trim(Trim(s)) == Trim(s)
  {
  }
}
