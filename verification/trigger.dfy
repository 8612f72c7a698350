/** The plugin-level keypress handler that starts a tagging session: the
    typed character must be the delimiter of a configured tag and the
    character before the caret must be whitespace or absent. */
module Trigger {
  import opened Wrappers
  import opened JsText
  import opened Options

  /** `prevCharIsSpace`. `data` is the caret container's `data` property
      (None when the container is an element, read as the empty string) and
      `start` the caret offset in it. At offset 0 the character AT index 0
      is inspected, since the slice starts at `max(start - 1, 0)`. */
  function PrevCharIsSpace(data: Option<string>, start: nat): (r: bool)
    ensures var text := data.GetOr("");
      var at := if start > 0 then start - 1 else 0;
      r <==> (at >= |text| || IsJsSpace(text[at]))
  {
    var text := data.GetOr("");
    var character := StripSpaces(Substr1(text, if start > 0 then start - 1 else 0));
    character == ""
  }

  /** `tags.filter(tag => tag.delimeter === typed)[0]`: the first configured
      tag whose delimiter is the typed character. */
  function FirstTag(tags: seq<TagOptions>, typed: char): (r: Option<TagOptions>)
    ensures r.None? <==> forall i :: 0 <= i < |tags| ==> tags[i].delimiter != [typed]
    ensures r.Some? ==> exists i :: (0 <= i < |tags| && tags[i] == r.value && tags[i].delimiter == [typed]
                                     && forall j :: 0 <= j < i ==> tags[j].delimiter != [typed])
  {
    var k := FindIndex(tags, (t: TagOptions) => t.delimiter == [typed]);
    if k == -1 then None else Some(tags[k])
  }

  /** The keypress handler's decision: the options to construct a session
      with, or None when the keystroke passes through to the editor. It does
      not consult any session already open. */
  function Detect(tags: seq<TagOptions>, typed: char, data: Option<string>, start: nat): (r: Option<TagOptions>)
    ensures r.Some? <==> FirstTag(tags, typed).Some? && PrevCharIsSpace(data, start)
    ensures r.Some? ==> r == FirstTag(tags, typed)
  {
    var tracking := FirstTag(tags, typed);
    if tracking.Some? && PrevCharIsSpace(data, start) then tracking else None
  }

  /** A delimiter typed right after a non-space character starts nothing;
      typed at the very start of a field, the first character of the field
      decides, and an empty field always allows it. */
  lemma TriggerContext(tags: seq<TagOptions>, typed: char, text: string, start: nat)
    ensures 0 < start <= |text| && !IsJsSpace(text[start - 1]) ==> Detect(tags, typed, Some(text), start).None?
    ensures start == 0 && |text| > 0 ==>
      (Detect(tags, typed, Some(text), 0).Some? <==> FirstTag(tags, typed).Some? && IsJsSpace(text[0]))
    ensures Detect(tags, typed, Some(""), start) == FirstTag(tags, typed)
    ensures Detect(tags, typed, None, start) == FirstTag(tags, typed)
  {
  }
}
