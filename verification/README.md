# tinymce-tagging: the tag-session controller

The plugin watches typing in a TinyMCE editor. When a configured delimiter
such as `@` is typed after whitespace, it opens a session: a placeholder span
goes into the document and a dropdown appears. A key-up of an ordinary key
(and of Backspace while the stored text is not empty) triggers a debounced
call to the caller's `source` function; Shift, Ctrl, Alt, the arrows, Tab,
Enter and Escape do not. The results are listed in the dropdown. The arrow keys move the highlighted row. Clicking a row, or
Tab or Enter while a row is highlighted, puts the formatted item where the
placeholder was. Escape, a click elsewhere on the page, or Tab or Enter with
no row highlighted puts the delimiter and the typed text back as plain text.

This project models one `Tagging` instance, which is one session, as an
immutable `Session` value. Every handler is a pure function on that value.
The DOM is reduced to a few fields:

- whether the handlers are attached;
- what the dropdown shows: nothing (removed), blank, a message, or rows;
- which row is active, if any;
- the stored `tracking` text and the stored `items`;
- the debounce timers;
- the list of calls made to the source;
- whether the placeholder is still in the document, and what was written in its place.

A handler that throws in JavaScript returns `Threw(state)`. That state keeps
whatever the handler had already changed before the throw.

Modules:

- `Wrappers`: `Option`.
- `JsText`: the JavaScript string and array primitives the plugin uses (`\s`, `substr`, `replace`, `findIndex`).
- `Options`: constructor defaults, items, and the default insert formatter with its inverse.
- `Highlight`: up/down navigation.
- `Trigger`: the keypress detector.
- `Tagging`: the session state machine.
- `SessionLaws`: properties of the state machine.
- `Scenarios`: whole sessions on concrete input.

Behaviour of the code worth knowing, which the model keeps:

- The arrows fall off either end of the list, leaving no row active. They do not clamp.
- Backspace looks at the `tracking` text stored by the previous lookup. It does not look at the text in the span now, so deleting the last typed character takes two key-ups to close the session.
- `clean` never clears the debounce timer. A pending source call still happens after the session is closed. The results then arrive at a `render` that finds no dropdown and throws. There is no guard against stale responses.
- The keypress trigger does not check whether a session is already open.
- With the built-in formatter, an Enter whose active row matches no stored item throws after the placeholder has been removed. The `clean()` after it is skipped, so the session stays open. The model treats a custom `insert` given `undefined` the same way (see Options.Format under "## Left out"); a custom formatter that accepted `undefined` would instead write its output and close the session.

## Model

| member | source | states |
|---|---|---|
| JsText.FindIndex | plugin.js:474-478 | `findIndex`: -1 exactly when no element satisfies the test; otherwise the index of the first element that does |
| JsText.StripSpaces | plugin.js:507 | `replace(/\s/g, '')`: the result holds exactly the input's non-whitespace characters, it is empty exactly when every input character is whitespace, and for the one-character slices the plugin passes it is the slice itself or "" |
| JsText.Substr1 | plugin.js:507 | `substr(start, 1)`: the character at `start`, or the empty string past the end |
| JsText.RemoveFirst | plugin.js:257 | `replace('\ufeff', '')` removes only the first occurrence: the text is unchanged if the character is absent, otherwise exactly one character goes and it is the first occurrence |
| JsText.RemoveFirstLeading | plugin.js:257 | a span text made of the leading zero-width no-break space (U+FEFF) plus the typed text reads back as exactly the typed text |
| Options.OrInt | plugin.js:14 | `option \|\| fallback` for numbers: an absent value and 0 both give the fallback; any other value is kept |
| Options.OrString | plugin.js:17 | `option \|\| fallback` for strings: an absent value and "" both give the fallback; any other value is kept |
| Options.Configure | plugin.js:12-27 | delimiter and selector are copied; each of delay, limit, title, empty and loading message is kept when truthy and otherwise falls back to 500, 10, the selector, "There are no results." and "Loading..."; a given `insert` is used as the formatter and the built-in one exactly when there is none |
| Options.ConfigureDefaults | plugin.js:14-26 | a tag with only a delimiter and a selector (even an empty one) gets delay 500, limit 10, title = selector, "There are no results.", "Loading..." and the default formatter |
| Options.Attr | plugin.js:395-396 | a missing item field is read as the string "undefined" |
| Options.FormatDefault | plugin.js:130-133 | the default markup is a span opening with `<span data-tagging-id="`, closing with `</span>`, whose length is the sum of its parts |
| Options.ParseTag | plugin.js:132 | whatever it accepts rebuilds the input exactly when put back into the span template, and the key it returns holds no double quote |
| Options.DefaultInsertRoundTrip | plugin.js:130-133 | reading back a default span gives the item's key and title, when the key contains no double quote |
| Options.Format | plugin.js:246 | `insert(item)` gives markup exactly when the item is defined: the default span for the built-in formatter, the caller's output for a custom one |
| Highlight.Next | plugin.js:185-206 | down arrow: the result is always no row or a row that is shown |
| Highlight.Previous | plugin.js:213-234 | up arrow: the result is a row that is shown whenever the starting row was |
| Highlight.NextTimes | plugin.js:303-305 | after one or more down presses the highlight is always a shown row or none |
| Highlight.PreviousTimes | plugin.js:297-299 | repeated up presses keep the highlight on a shown row or none |
| Highlight.NextCases | plugin.js:193-205 | down: from none to the first row, from i to i+1, from the last row to none, and none on an empty list |
| Highlight.PreviousCases | plugin.js:221-233 | up: from none to the FIRST row, from i>0 to i-1, from row 0 to none, and none on an empty list |
| Highlight.NextWalk | plugin.js:185-206 | k down presses from none highlight row k-1 for k up to n; the (n+1)-th press leaves none: no clamp, no wrap |
| Highlight.PreviousWalk | plugin.js:213-234 | k up presses from row i highlight row i-k for k up to i; one more leaves none, never the last row |
| Highlight.NextThenPrevious | plugin.js:185-234 | down then up returns to the starting row when that row is not the last |
| Highlight.PreviousThenNext | plugin.js:185-234 | up then down returns to the starting row when that row is not the first |
| Highlight.ArrowsAgreeFromNone | plugin.js:193-196 | from no active row both arrows highlight the first row |
| Trigger.PrevCharIsSpace | plugin.js:503-510 | true exactly when the character at `max(start-1, 0)` is missing or whitespace; a container without text counts as empty |
| Trigger.FirstTag | plugin.js:514-517 | none exactly when no tag has the typed delimiter; otherwise the first tag that has it |
| Trigger.Detect | plugin.js:512-519 | a session starts exactly when a tag matches and the character before the caret is whitespace or missing, with the first matching tag |
| Trigger.TriggerContext | plugin.js:503-519 | nothing starts after a non-space character; at offset 0 the first character of the text decides; empty or missing text always allows a start |
| Tagging.Init | plugin.js:12-32 | a new instance keeps the given configuration and has its handlers attached, an empty dropdown, no timer handle, the placeholder in the document, no items, no timers and no source calls, and satisfies the invariant |
| Tagging.Start | plugin.js:512-526 | an instance exists exactly when the detector fires; it satisfies the invariant, uses the typed character as delimiter, and is configured from the first matching tag |
| Tagging.RowOf | plugin.js:393-400 | a row's id is the item's selector field, its content is the title field, and its click handler holds the item |
| Tagging.RenderRows | plugin.js:389-403 | `min(limit, \|items\|)` rows, none if limit is not positive, row i rendered from item i, in source order |
| Tagging.Render | plugin.js:378-412 | with no dropdown it throws and changes nothing; otherwise it stores the full result list, clears the highlight, and shows the empty message for no results or the first `limit` rows keyed and labelled from the results; nothing else changes |
| Tagging.Lookup | plugin.js:255-267 | stores the span text minus its first zero-width no-break space (U+FEFF); throws with no placeholder, or without a dropdown after storing the text; otherwise shows the loading message, clears the highlight, cancels the last scheduled timer and schedules one fresh timer; source calls and document unchanged |
| Tagging.Fire | plugin.js:263-266 | a firing timer calls the source once with the tracking text stored at that moment and is no longer pending; nothing else changes |
| Tagging.Clean | plugin.js:93-121 | always detaches the handlers and removes the dropdown; a placeholder is replaced by delimiter + tracking on rollback and by the delimiter alone otherwise; without a placeholder the document is unchanged; pending timers stay |
| Tagging.InsertItem | plugin.js:242-248 | the placeholder is always removed; a defined item's markup is appended; an undefined item throws with nothing written; nothing else changes |
| Tagging.ActiveRow | plugin.js:174-178 | under the invariant, a row is found exactly when one is active, and it is the shown row at the active index |
| Tagging.ItemForKey | plugin.js:474-478 | undefined exactly when no stored item's selector field is strictly equal to the key; otherwise the first stored item whose field is |
| Tagging.SelectActiveItem | plugin.js:466-482 | nothing happens without an active row; otherwise it inserts the stored item that matches the active row's key |
| Tagging.OnKeydown | plugin.js:285-309 | down applies Next and up applies Previous to the highlight; every other key changes nothing; only the highlight ever changes |
| Tagging.OnKeyup | plugin.js:317-369 | a key-up never calls the source itself; only Backspace, Tab, Enter and Escape end the session; Tab or Enter throws only when the active row matches no stored item; other keys throw only when the placeholder or the dropdown is gone |
| Tagging.Handle | plugin.js:39-44 | only a firing timer calls the source; a closed session never reopens; an open one is closed only by Backspace, Tab, Enter or Escape on key-up, a row click or a page click |
| SessionLaws.HandlePreservesValid | plugin.js:93-412 | every event keeps the invariant: highlight on a shown row, rows rendered from the stored items, handlers attached exactly while the dropdown exists, only the last scheduled timer pending |
| SessionLaws.RunPreservesValid | plugin.js:93-412 | every sequence of events keeps the invariant |
| SessionLaws.AtMostOnePendingLookup | plugin.js:262-266 | at most one source call is ever pending, and it is the one `searching` names |
| SessionLaws.LookupReplacesPendingTimer | plugin.js:262-266 | a lookup cancels every pending timer and leaves exactly one fresh timer |
| SessionLaws.DebounceCollapsesBursts | plugin.js:255-267 | after two lookups the first timer is gone; the second calls the source exactly once, with the second text |
| SessionLaws.FireCallsSourceWithTracking | plugin.js:265 | a firing timer calls the source with the stored tracking text and leaves nothing pending |
| SessionLaws.TrackingChangesOnlyWithFreshTimer | plugin.js:257 | only a key-up changes the tracking text, and when it does it leaves one fresh timer, so every pending call uses the text of the lookup that scheduled it |
| SessionLaws.LookupTracksTypedText | plugin.js:257 | a lookup stores exactly the text typed after the zero-width no-break space (U+FEFF) |
| SessionLaws.ModifiersAndArrowsOnKeyup | plugin.js:319-332 | Shift, Ctrl, Alt, Up and Down do nothing on key-up; Shift, Ctrl and Alt do nothing on key-down either |
| SessionLaws.ArrowsOnKeydown | plugin.js:296-306 | on key-down, Down applies Next and Up applies Previous to the shown rows, and nothing else changes |
| SessionLaws.BackspaceUsesStoredTracking | plugin.js:334-343 | Backspace cleans without rollback exactly when the stored text is empty, whatever the span shows; otherwise it looks up and stays open |
| SessionLaws.BackspaceToEmptyTakesTwo | plugin.js:334-343 | deleting the last character takes one key-up to store the empty text and a second one to write the bare delimiter and close |
| SessionLaws.EscapeAndBodyClickRollBack | plugin.js:274-277 | Escape and a page click both close the session and write delimiter + tracking in place of the placeholder |
| SessionLaws.AcceptWithoutActiveRowRollsBack | plugin.js:345-358 | Tab or Enter with no active row is `clean(true)` |
| SessionLaws.OtherKeysLookUp | plugin.js:365-367 | any key not in the table triggers a lookup |
| SessionLaws.CommitInsertsMarkupOnly | plugin.js:349-354 | Tab or Enter on a matching active row writes only the formatted item, with no delimiter, removes the placeholder and closes the session |
| SessionLaws.CommitWithoutMatchThrows | plugin.js:466-482 | an active row matching no stored item throws with the placeholder gone, nothing written and the session still open |
| SessionLaws.CommitInsertsHighlightedItem | plugin.js:466-482 | when item keys are present and unique, the committed item is the highlighted row's item |
| SessionLaws.RowClickCommits | plugin.js:397-400 | clicking row i writes item i's markup alone and closes the session |
| SessionLaws.ClosedSessionIgnoresInput | plugin.js:489-494 | once closed, keys and clicks change nothing |
| SessionLaws.PendingLookupOutlivesClean | plugin.js:93-121 | cleaning keeps the pending timer; when it fires it still calls the source, and the results then throw in `render` |
| Scenarios.PickFirstSuggestion | plugin.js:317-369 | `@` after a space, then "bo", results Bob and Bobby, Down and Enter: one source call with "bo", then Bob's span written and the session closed |
| Scenarios.NoResultsShowsEmptyMessage | plugin.js:406-409 | an empty result shows "There are no results." |
| Scenarios.ResultsAreClipped | plugin.js:389-411 | twelve results show ten rows and store all twelve |
| Scenarios.DelimiterAfterLetterIsIgnored | plugin.js:519 | `@` typed after a letter starts no session |

## Left out

- DOM construction and layout (`renderDropdown`, `renderContainer`, `calculatePosition`, the inside of `displayContainerMessage`): the model keeps only what the dropdown shows and whether the placeholder is there.
- `generateID`: it uses `Math.random`, and the id has no other effect on the model, so it is left out.
- Event binding and TinyMCE calls (`on`/`off`, `execCommand`, `selection`, `dom.replace`, `focus`, caret placement): the model keeps only their effect on the abstract document and the `bound` flag.
- Timer timing and `delay`: a timer is a handle that is pending until it fires or is cleared. When it fires is left to the environment. `delay` is stored but has no effect on the model.
- The asynchronous `source` function: its calls are recorded in `queries`. Its answers arrive as a `Deliver` event at any time, even without a matching call, which covers every order the real source could produce.
- Key codes to characters: the keypress detector takes the typed character directly, not `String.fromCharCode(keyCode)`. Strings are sequences of Unicode scalar values, so UTF-16 surrogate pairs and offsets inside them are not modelled.
- The user's own editing of the document: what the editor does on key-down (inserting or deleting characters) shows up only as the span text carried by the next key-up. The user deleting the placeholder by hand is not an event; the transitions still say what happens when it is gone.
- Highlight.Next: its own contract states only that the result is a shown row or none; the case-by-case behaviour is stated by Highlight.NextCases and Highlight.NextWalk.
- Highlight.Previous: its own contract states only that the result stays on a shown row or none; the case-by-case behaviour is stated by Highlight.PreviousCases and Highlight.PreviousWalk.
- JsText.StripSpaces: its contract gives the set of characters kept and the exact value for inputs of at most one character (all the plugin passes), not their order for longer inputs.
- Options.FormatDefault: its own contract states only the opening, the closing and the length of the span; that the span holds exactly the item's key and title is stated by Options.DefaultInsertRoundTrip.
- Options.Format: a caller's `insert` function given `undefined` is modelled as throwing, like the built-in formatter; what it really does is up to the caller.
- Item field values are strings. JavaScript's number-to-string coercion in `setAttribute`, and the `===` mismatch it causes against a numeric `selector` value, are not modelled. A missing `selector` or `title` option (reading `item[undefined]`) is not modelled either.
- Several open sessions: the keypress handler can construct a second instance while one is open, because it does not check for a live session. The model describes one instance at a time.
- `limit`, `delay` and item counts are unbounded integers. Non-integer limits and NaN are not modelled.
