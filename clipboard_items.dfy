/** An entry of the clipboard history: immutable text captured at an instant, and a favourite flag. */
module ClipboardItems {
  import opened Seqs
  import opened Text

  datatype ClipboardItem = ClipboardItem(id: Uuid, content: string, timestamp: int, isFavorite: bool)

  /** `ClipboardItem(content:)`: `id` and `now` stand for `UUID()` and `Date()`. */
  function NewItem(id: Uuid, content: string, now: int): (c: ClipboardItem)
    ensures !c.isFavorite && c.content == content && c.id == id && c.timestamp == now
  {
    ClipboardItem(id, content, now, false)
  }

  const PreviewLength := 100

  /** `preview`. */
  function Preview(c: ClipboardItem): string
  {
    Ellipsized(c.content, PreviewLength)
  }

  lemma PreviewSpec(c: ClipboardItem)
    ensures |c.content| <= 100 ==> Preview(c) == c.content
    ensures |c.content| > 100 ==> Preview(c) == c.content[..100] + "..."
  {
    EllipsizedSpec(c.content, PreviewLength);
  }

  /** `wordCount`. */
  function Words(c: ClipboardItem): nat
  {
    WordCount(c.content)
  }

  /** `characterCount` (one character per `char`; grapheme clusters are outside the model). */
  function Characters(c: ClipboardItem): nat
  {
    |c.content|
  }

  /** Never more words than characters; no words exactly for whitespace-only content. */
  lemma WordsSpec(c: ClipboardItem)
    ensures Words(c) <= Characters(c)
    ensures Words(c) == 0 <==> AllWhitespace(c.content)
  {
    WordCountSpec(c.content);
  }

  /** `==` on clipboard items. */
  predicate SameItem(a: ClipboardItem, b: ClipboardItem)
  {
    a.id == b.id
  }

  /** The key the history is searched and edited by. */
  function ItemId(c: ClipboardItem): Uuid { c.id }

  /** Item equality looks at the identifier only, so toggling the favourite flag keeps an item
      equal to its old self. So the list operations that match on `id` agree with `==`: deleting
      an item drops exactly the items equal to it, and the first item with its identifier is the
      first item equal to it. */
  lemma SameItemSpec(items: seq<ClipboardItem>, a: ClipboardItem, b: ClipboardItem)
    ensures SameItem(a, a.(isFavorite := !a.isFavorite))
    ensures SameItem(a, b) <==> a.id == b.id
    ensures SameItem(a, b) ==> SameItem(b, a)
    ensures forall c :: c in RemoveKey(items, ItemId, a.id) <==> c in items && !SameItem(c, a)
    ensures FirstIndex(items, ItemId, a.id).Some? ==>
              var i := FirstIndex(items, ItemId, a.id).value;
              SameItem(items[i], a) && forall j :: 0 <= j < i ==> !SameItem(items[j], a)
    ensures FirstIndex(items, ItemId, a.id).None? <==> forall c :: c in items ==> !SameItem(c, a)
  {
    RemoveKeySpec(items, ItemId, a.id);
  }
}
