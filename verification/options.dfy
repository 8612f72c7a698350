/** The per-tag configuration object handed to the `Tagging` constructor, the
    defaults the constructor fills in, candidate items, and the default insert
    formatter. */
module Options {
  import opened Wrappers
  import opened JsText

  /** A candidate returned by the source: a plain object whose fields are
      read by name. Field values are modelled as strings. */
  type Item = map<string, string>

  /** The options object of one configured tag. Absent properties are None;
      `source` is the caller's asynchronous lookup and is not part of the
      model (its calls are recorded by the session instead). */
  datatype TagOptions = TagOptions(
    delimiter: string,
    selector: string,
    title: Option<string>,
    delay: Option<int>,
    limit: Option<int>,
    emptyMessage: Option<string>,
    loadingMessage: Option<string>,
    insert: Option<Item -> string>)

  /** How an accepted item becomes markup: the built-in formatter or the
      caller's `insert` option. */
  datatype Inserter = DefaultInsert | CustomInsert(format: Item -> string)

  /** The settings a `Tagging` instance holds after construction. */
  datatype Config = Config(
    delimiter: string,
    selector: string,
    title: string,
    delay: int,
    limit: int,
    emptyMessage: string,
    loadingMessage: string,
    inserter: Inserter)

  const DefaultDelay: int := 500
  const DefaultLimit: int := 10
  const DefaultEmptyMessage: string := "There are no results."
  const DefaultLoadingMessage: string := "Loading..."

  /** `option || fallback` for a number: absent and 0 are both falsy. */
  function OrInt(o: Option<int>, fallback: int): (r: int)
    ensures o.Some? && o.value != 0 ==> r == o.value
    ensures o.None? || o.value == 0 ==> r == fallback
  {
    if o.Some? && o.value != 0 then o.value else fallback
  }

  /** `option || fallback` for a string: absent and "" are both falsy. */
  function OrString(o: Option<string>, fallback: string): (r: string)
    ensures o.Some? && o.value != "" ==> r == o.value
    ensures o.None? || o.value == "" ==> r == fallback
  {
    if o.Some? && o.value != "" then o.value else fallback
  }

  /** The constructor's defaulting of its options. */
  function Configure(o: TagOptions): (c: Config)
    ensures c.delimiter == o.delimiter && c.selector == o.selector
    ensures c.delay != 0 && c.limit != 0
    ensures c.emptyMessage != "" && c.loadingMessage != ""
    ensures o.selector != "" ==> c.title != ""
    ensures o.limit.Some? && o.limit.value != 0 ==> c.limit == o.limit.value
    ensures o.delay.Some? && o.delay.value != 0 ==> c.delay == o.delay.value
    ensures o.title.Some? && o.title.value != "" ==> c.title == o.title.value
    ensures o.insert.None? <==> c.inserter.DefaultInsert?
    ensures o.insert.Some? ==> c.inserter == CustomInsert(o.insert.value)
    ensures o.title.None? || o.title.value == "" ==> c.title == o.selector
    ensures o.delay.None? || o.delay.value == 0 ==> c.delay == DefaultDelay
    ensures o.limit.None? || o.limit.value == 0 ==> c.limit == DefaultLimit
    ensures o.emptyMessage.Some? && o.emptyMessage.value != "" ==> c.emptyMessage == o.emptyMessage.value
    ensures o.emptyMessage.None? || o.emptyMessage.value == "" ==> c.emptyMessage == DefaultEmptyMessage
    ensures o.loadingMessage.Some? && o.loadingMessage.value != "" ==> c.loadingMessage == o.loadingMessage.value
    ensures o.loadingMessage.None? || o.loadingMessage.value == "" ==> c.loadingMessage == DefaultLoadingMessage
  {
    Config(
      o.delimiter,
      o.selector,
      OrString(o.title, o.selector),
      OrInt(o.delay, DefaultDelay),
      OrInt(o.limit, DefaultLimit),
      OrString(o.emptyMessage, DefaultEmptyMessage),
      OrString(o.loadingMessage, DefaultLoadingMessage),
      if o.insert.Some? then CustomInsert(o.insert.value) else DefaultInsert)
  }

  /** A tag configured with nothing but its delimiter and selector gets the
      documented defaults. */
  lemma ConfigureDefaults(delimiter: string, selector: string)
    ensures var c := Configure(TagOptions(delimiter, selector, None, None, None, None, None, None));
      && c.delay == 500 && c.limit == 10 && c.title == selector
      && c.emptyMessage == "There are no results." && c.loadingMessage == "Loading..."
      && c.inserter == DefaultInsert
  {
  }

  /** `item[field]` used where JavaScript turns it into a string: a missing
      field reads as `undefined`, which converts to "undefined". */
  function Attr(item: Item, field: string): (r: string)
    ensures field in item ==> r == item[field]
    ensures field !in item ==> r == "undefined"
  {
    if field in item then item[field] else "undefined"
  }

  /** `item[selector] === key`: a missing field is `undefined`, which is
      strictly equal to no string. */
  predicate KeyMatches(item: Item, selector: string, key: string) {
    selector in item && item[selector] == key
  }

  const TagOpen: string := "<span data-tagging-id=\""
  const TagMiddle: string := "\">"
  const TagClose: string := "</span>"

  /** The built-in formatter: a span whose `data-tagging-id` is the item's
      key and whose content is the item's title. Nothing is escaped. */
  function FormatDefault(c: Config, item: Item): (r: string)
    ensures |r| == |TagOpen| + |Attr(item, c.selector)| + |TagMiddle| + |Attr(item, c.title)| + |TagClose|
    ensures r[..|TagOpen|] == TagOpen && r[|r| - |TagClose|..] == TagClose
  {
    TagOpen + Attr(item, c.selector) + TagMiddle + Attr(item, c.title) + TagClose
  }

  /** Reads back the key and the content of a span written by FormatDefault;
      None when `m` does not have that shape. */
  function ParseTag(m: string): (r: Option<(string, string)>)
    ensures r.Some? ==> TagOpen + r.value.0 + TagMiddle + r.value.1 + TagClose == m
    ensures r.Some? ==> '"' !in r.value.0
  {
    var a, b := |TagOpen|, |TagClose|;
    if |m| >= a + b && m[..a] == TagOpen && m[|m| - b..] == TagClose then
      var body := m[a..|m| - b];
      var q := FindIndex(body, (ch: char) => ch == '"');
      if 0 <= q && q + 1 < |body| && body[q + 1] == '>' then
        assert body[q..q + 2] == TagMiddle;
        Reassemble(m, a, |m| - b, q);
        Some((body[..q], body[q + 2..]))
      else None
    else None
  }

  /** Cutting `m` at `i`, `j` and then its middle part at `q`, `q + 2` loses
      nothing. */
  lemma Reassemble<T>(m: seq<T>, i: nat, j: nat, q: nat)
    requires i <= j <= |m| && q + 2 <= j - i
    ensures var body := m[i..j];
      m[..i] + body[..q] + body[q..q + 2] + body[q + 2..] + m[j..] == m
  {
    var body := m[i..j];
    assert body == body[..q] + body[q..q + 2] + body[q + 2..];
    assert m == m[..i] + body + m[j..];
  }

  /** The span written by the default formatter gives back the item's key
      and title, provided the key holds no double quote (a key with one
      ends the attribute early). */
  lemma {:induction false} DefaultInsertRoundTrip(c: Config, item: Item)
    requires '"' !in Attr(item, c.selector)
    ensures ParseTag(FormatDefault(c, item)) == Some((Attr(item, c.selector), Attr(item, c.title)))
  {
    var key, text := Attr(item, c.selector), Attr(item, c.title);
    var m := FormatDefault(c, item);
    var body := m[|TagOpen|..|m| - |TagClose|];
    assert body == key + TagMiddle + text;
    var q := FindIndex(body, (ch: char) => ch == '"');
    assert body[|key|] == '"';
    assert q == |key|;
    assert body[..q] == key;
    assert body[q + 2..] == text;
  }

  /** `this.insert(item)`. `item` is None when the caller passes `undefined`;
      the built-in formatter then throws (reading a field of `undefined`),
      and so, in this model, does a custom one. */
  function Format(c: Config, item: Option<Item>): (r: Option<string>)
    ensures r.Some? <==> item.Some?
    ensures item.Some? && c.inserter.DefaultInsert? ==> r == Some(FormatDefault(c, item.value))
    ensures item.Some? && c.inserter.CustomInsert? ==> r == Some(c.inserter.format(item.value))
  {
    match item
    case None => None
    case Some(it) =>
      match c.inserter
      case DefaultInsert => Some(FormatDefault(c, it))
      case CustomInsert(f) => Some(f(it))
  }
}
