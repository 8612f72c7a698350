/** Properties of the tagging session: the invariant every event keeps, the
    debounce bookkeeping, the key-up dispatch table, and commit and clean. */
module SessionLaws {
  import opened Wrappers
  import opened JsText
  import opened Options
  import Highlight
  import opened Tagging

  /** Every event keeps the representation invariant. */
  lemma HandlePreservesValid(s: Session, e: Event)
    requires Valid(s)
    ensures Valid(Handle(s, e).state)
  {
    match e
    case KeyDown(code) =>
    case KeyUp(code, text) =>
      if s.bound {
        KeyupPreservesValid(s, code, text);
      }
    case RowClick(i) =>
    case BodyClick =>
    case TimerFires(t) =>
    case Deliver(results) =>
  }

  lemma KeyupPreservesValid(s: Session, code: int, text: string)
    requires Valid(s)
    ensures Valid(OnKeyup(s, code, text).state)
  {
    if code == TabKey || code == EnterKey {
      if ActiveRow(s).Some? {
        var o := SelectActiveItem(s);
        assert o.state == s.(doc := o.state.doc);
      }
    } else if code != ShiftKey && code != CtrlKey && code != AltKey && code != UpKey && code != DownKey
              && code != EscapeKey && !(code == BackspaceKey && s.tracking == "") {
      LookupPreservesValid(s, text);
    }
  }

  lemma LookupPreservesValid(s: Session, text: string)
    requires Valid(s)
    ensures Valid(Lookup(s, text).state)
  {
  }

  /** ... and so does every sequence of events. */
  lemma {:induction false} RunPreservesValid(s: Session, events: seq<Event>)
    requires Valid(s)
    ensures Valid(Run(s, events))
    decreases |events|
  {
    if |events| > 0 {
      HandlePreservesValid(s, events[0]);
      RunPreservesValid(Handle(s, events[0]).state, events[1..]);
    }
  }

  /** At most one source call is ever pending: the only timer that can be
      scheduled is the one `searching` names. */
  lemma AtMostOnePendingLookup(s: Session)
    requires Valid(s)
    ensures |s.timers| <= 1
    ensures s.timers != {} ==> s.searching.Some? && s.timers == {s.searching.value}
  {
    if s.timers != {} {
      var t :| t in s.timers;
      assert s.timers == {t} by {
        forall u | u in s.timers ensures u == t { assert s.searching == Some(u); }
      }
    }
  }

  /** A key-up that looks up cancels the pending call, if any, and leaves
      exactly one, fresh, timer pending. */
  lemma LookupReplacesPendingTimer(s: Session, spanText: string)
    requires Valid(s) && s.bound && s.doc.placeholder
    ensures Lookup(s, spanText).Done?
    ensures Lookup(s, spanText).state.timers == {s.nextTimer}
    ensures s.timers !! Lookup(s, spanText).state.timers
  {
    var r := Lookup(s, spanText).state;
    assert s.nextTimer !in s.timers;
    assert forall t :: t in r.timers ==> t == s.nextTimer;
  }

  /** Two lookups with no timer firing between them: the first scheduled
      call is gone, only the second is pending, and when it fires the source
      is called once, with the text of the second lookup. */
  lemma DebounceCollapsesBursts(s: Session, first: string, second: string)
    requires Valid(s) && s.bound && s.doc.placeholder
    ensures var s2 := Lookup(Lookup(s, first).state, second).state;
      && s2.timers == {s.nextTimer + 1}
      && s2.queries == s.queries
      && Handle(s2, TimerFires(s.nextTimer)).state == s2
      && Handle(s2, TimerFires(s.nextTimer + 1)).state.queries == s.queries + [RemoveFirst(second, Dummy)]
  {
    var s1 := Lookup(s, first).state;
    LookupReplacesPendingTimer(s, first);
    HandlePreservesValid(s, KeyUp(65, first));
    assert Handle(s, KeyUp(65, first)).state == s1;
    LookupReplacesPendingTimer(s1, second);
  }

  /** A timer firing calls the source with the stored tracking text and
      leaves nothing pending. */
  lemma FireCallsSourceWithTracking(s: Session, t: nat)
    requires Valid(s) && t in s.timers
    ensures Handle(s, TimerFires(t)).state.queries == s.queries + [s.tracking]
    ensures Handle(s, TimerFires(t)).state.timers == {}
  {
    AtMostOnePendingLookup(s);
  }

  /** Only a lookup changes the tracking text, and it schedules a fresh timer
      at the same time, cancelling every older one; so the source call any
      pending timer makes uses the text of the lookup that scheduled it. */
  lemma TrackingChangesOnlyWithFreshTimer(s: Session, e: Event)
    requires Valid(s)
    requires Handle(s, e).state.tracking != s.tracking
    ensures e.KeyUp? && Handle(s, e).state.timers == {s.nextTimer}
  {
    match e
    case KeyUp(code, text) =>
      if s.bound && s.doc.placeholder {
        LookupReplacesPendingTimer(s, text);
      }
    case _ =>
  }

  /** Looking up reads the span text with its leading zero-width no-break
      space (U+FEFF)
      removed: exactly what was typed after the delimiter. */
  lemma LookupTracksTypedText(s: Session, typed: string)
    requires s.doc.placeholder
    ensures Lookup(s, [Dummy] + typed).state.tracking == typed
  {
    RemoveFirstLeading(Dummy, typed);
  }

  /** Shift, Ctrl, Alt and the arrows do nothing on key-up; on key-down
      only the arrows do anything, and only to the highlight. */
  lemma ModifiersAndArrowsOnKeyup(s: Session, code: int, text: string)
    requires code in {ShiftKey, CtrlKey, AltKey, UpKey, DownKey}
    ensures Handle(s, KeyUp(code, text)) == Done(s)
    ensures code !in {UpKey, DownKey} ==> Handle(s, KeyDown(code)) == Done(s)
  {
  }

  /** The arrows on key-down move the highlight over the rows shown. */
  lemma ArrowsOnKeydown(s: Session)
    requires s.bound
    ensures Handle(s, KeyDown(DownKey)) == Done(s.(active := Highlight.Next(s.active, RowCount(s.view))))
    ensures Handle(s, KeyDown(UpKey)) == Done(s.(active := Highlight.Previous(s.active, RowCount(s.view))))
  {
  }

  /** Backspace tests the tracking text STORED by the previous lookup, not
      the text now in the span: an empty stored text cleans without
      rollback, whatever the span shows; otherwise it is a lookup. */
  lemma BackspaceUsesStoredTracking(s: Session, text: string)
    requires s.bound
    ensures s.tracking == "" ==> Handle(s, KeyUp(BackspaceKey, text)) == Done(Clean(s, false))
    ensures s.tracking != "" ==> Handle(s, KeyUp(BackspaceKey, text)) == Lookup(s, text)
    ensures s.tracking != "" && s.doc.placeholder && Valid(s) ==>
      && Handle(s, KeyUp(BackspaceKey, text)).state.bound
      && Handle(s, KeyUp(BackspaceKey, text)).state.tracking == RemoveFirst(text, Dummy)
  {
  }

  /** Deleting the last typed character therefore takes two key-ups to
      close the session: the first stores the empty text, the second
      replaces the placeholder by the bare delimiter. */
  lemma BackspaceToEmptyTakesTwo(s: Session, later: string)
    requires Valid(s) && s.bound && s.doc.placeholder && s.tracking != ""
    ensures var s1 := Handle(s, KeyUp(BackspaceKey, [Dummy])).state;
      && s1.bound && s1.tracking == ""
      && var s2 := Handle(s1, KeyUp(BackspaceKey, later)).state;
         !s2.bound && s2.doc.written == s.doc.written + [PlainText(s.config.delimiter)]
  {
    RemoveFirstLeading(Dummy, "");
  }

  /** Escape, and a click anywhere on the page, clean with rollback: the
      delimiter and the typed text come back as plain text. */
  lemma EscapeAndBodyClickRollBack(s: Session, text: string)
    requires s.bound && s.doc.placeholder
    ensures Handle(s, KeyUp(EscapeKey, text)) == Done(Clean(s, true))
    ensures Handle(s, BodyClick) == Done(Clean(s, true))
    ensures !Clean(s, true).bound
    ensures Clean(s, true).doc.written == s.doc.written + [PlainText(s.config.delimiter + s.tracking)]
  {
  }

  /** Tab or Enter with no active row cleans with rollback. */
  lemma AcceptWithoutActiveRowRollsBack(s: Session, code: int, text: string)
    requires Valid(s) && s.bound && s.active.None?
    requires code == TabKey || code == EnterKey
    ensures Handle(s, KeyUp(code, text)) == Done(Clean(s, true))
  {
  }

  /** Any key outside the table looks up. */
  lemma OtherKeysLookUp(s: Session, code: int, text: string)
    requires s.bound
    requires code !in {BackspaceKey, TabKey, EnterKey, ShiftKey, CtrlKey, AltKey, EscapeKey, UpKey, DownKey}
    ensures Handle(s, KeyUp(code, text)) == Lookup(s, text)
  {
  }

  /** Tab or Enter with an active row whose key matches a stored item: the
      placeholder is replaced by the formatted item ALONE (the `clean()`
      that follows finds no placeholder, so no delimiter is written), and
      the session closes. */
  lemma CommitInsertsMarkupOnly(s: Session, code: int, text: string)
    requires Valid(s) && s.bound && s.doc.placeholder && s.active.Some?
    requires code == TabKey || code == EnterKey
    requires ItemForKey(s, ActiveRow(s).value.key).Some?
    ensures var r := Handle(s, KeyUp(code, text));
      && r.Done? && !r.state.bound && r.state.view == Absent && !r.state.doc.placeholder
      && r.state.doc.written
         == s.doc.written + [Markup(Format(s.config, ItemForKey(s, ActiveRow(s).value.key)).value)]
  {
  }

  /** An active row whose key matches no stored item (possible only when an
      item lacks its selector field): formatting `undefined` throws after
      the placeholder is gone, the `clean()` is skipped, and the session
      stays open with nothing written. */
  lemma CommitWithoutMatchThrows(s: Session, code: int, text: string)
    requires Valid(s) && s.bound && s.active.Some?
    requires code == TabKey || code == EnterKey
    requires ItemForKey(s, ActiveRow(s).value.key).None?
    ensures var r := Handle(s, KeyUp(code, text));
      && r.Threw? && r.state.bound && !r.state.doc.placeholder
      && r.state.doc.written == s.doc.written
  {
  }

  /** Every stored item has its selector field, and no two share a value. */
  predicate UniqueKeys(selector: string, items: seq<Item>) {
    && (forall j :: 0 <= j < |items| ==> selector in items[j])
    && (forall j, k :: 0 <= j < k < |items| ==> items[j][selector] != items[k][selector])
  }

  /** With unique keys, the item committed is exactly the highlighted row's
      item. */
  lemma {:induction false} CommitInsertsHighlightedItem(s: Session, code: int, text: string)
    requires Valid(s) && s.bound && s.doc.placeholder && s.active.Some?
    requires code == TabKey || code == EnterKey
    requires UniqueKeys(s.config.selector, s.items)
    ensures var i := s.active.value;
      && i < |s.items|
      && Handle(s, KeyUp(code, text)).state.doc.written
         == s.doc.written + [Markup(Format(s.config, Some(s.items[i])).value)]
  {
    var i := s.active.value;
    var row := ActiveRow(s).value;
    assert row == RowOf(s.config, s.items[i]);
    assert KeyMatches(s.items[i], s.config.selector, row.key);
    var found := ItemForKey(s, row.key);
    assert found.Some?;
    var k :| 0 <= k < |s.items| && s.items[k] == found.value
             && KeyMatches(s.items[k], s.config.selector, row.key)
             && forall j :: 0 <= j < k ==> !KeyMatches(s.items[j], s.config.selector, row.key);
    assert k == i;
    CommitInsertsMarkupOnly(s, code, text);
  }

  /** Clicking a row inserts that row's item and, the click bubbling to the
      body, closes the session; no delimiter is written. */
  lemma RowClickCommits(s: Session, i: nat)
    requires Valid(s) && s.bound && s.doc.placeholder
    requires s.view.Rows? && i < |s.view.rows|
    ensures i < |s.items|
    ensures var r := Handle(s, RowClick(i)).state;
      && !r.bound && !r.doc.placeholder
      && r.doc.written == s.doc.written + [Markup(Format(s.config, Some(s.items[i])).value)]
  {
    assert s.view.rows[i] == RowOf(s.config, s.items[i]);
  }

  /** Once closed, the session ignores every key and click. */
  lemma ClosedSessionIgnoresInput(s: Session, e: Event)
    requires Valid(s) && !s.bound
    requires e.KeyDown? || e.KeyUp? || e.RowClick? || e.BodyClick?
    ensures Handle(s, e) == Done(s)
  {
  }

  /** As written, cleaning does not clear the debounce timer: a call still
      pending fires after the session is closed and reaches the source, and
      the source's answer then finds no dropdown and throws. */
  lemma PendingLookupOutlivesClean(s: Session, rollback: bool, results: seq<Item>)
    requires Valid(s) && s.timers != {}
    ensures var c := Clean(s, rollback);
      && c.timers == s.timers
      && Handle(c, TimerFires(s.searching.value)).state.queries == s.queries + [s.tracking]
      && Handle(Handle(c, TimerFires(s.searching.value)).state, Deliver(results)).Threw?
  {
    AtMostOnePendingLookup(s);
  }
}
