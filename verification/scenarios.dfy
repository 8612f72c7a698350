/** Whole sessions, start to finish, on concrete input. */
module Scenarios {
  import opened Wrappers
  import opened Options
  import opened Tagging
  import Trigger

  const People: TagOptions := TagOptions("@", "id", Some("name"), None, None, None, None, None)

  const Bob: Item := map["id" := "1", "name" := "Bob"]
  const Bobby: Item := map["id" := "2", "name" := "Bobby"]

  /** The session the "@" trigger opens, after the key-up of the "@" key
      itself and then "b" and "o": the span shows the zero-width no-break space (U+FEFF) and
      the typed text. */
  function Typed(t: string, timer: nat): Session {
    var c := Configure(People);
    Session(c, true, Message("Loading..."), None, t, [], Some(timer), {timer}, timer + 1, [], Doc(true, []))
  }

  lemma TypeOneMore(t: string, timer: nat, code: int, ch: char)
    requires code !in {BackspaceKey, TabKey, EnterKey, ShiftKey, CtrlKey, AltKey, EscapeKey, UpKey, DownKey}
    ensures Handle(Typed(t, timer), KeyUp(code, [Dummy] + t + [ch])).state == Typed(t + [ch], timer + 1)
  {
    JsText.RemoveFirstLeading(Dummy, t + [ch]);
    assert [Dummy] + t + [ch] == [Dummy] + (t + [ch]);
  }

  lemma OpenAndType()
    ensures Start([People], '@', Some("hi "), 3).Some?
    ensures var s0 := Start([People], '@', Some("hi "), 3).value;
      var s1 := Handle(s0, KeyUp(50, [Dummy])).state;
      var s2 := Handle(s1, KeyUp(66, [Dummy, 'b'])).state;
      Handle(s2, KeyUp(79, [Dummy, 'b', 'o'])).state == Typed("bo", 2)
  {
    assert Trigger.FirstTag([People], '@') == Some(People);
    var s0 := Start([People], '@', Some("hi "), 3).value;
    JsText.RemoveFirstLeading(Dummy, "");
    assert Handle(s0, KeyUp(50, [Dummy])).state == Typed("", 0);
    TypeOneMore("", 0, 66, 'b');
    assert [Dummy] + "" + ['b'] == [Dummy, 'b'];
    TypeOneMore("b", 1, 79, 'o');
    assert [Dummy] + "b" + ['o'] == [Dummy, 'b', 'o'];
  }

  lemma FireAndShow()
    ensures var s4 := Handle(Typed("bo", 2), TimerFires(2)).state;
      && s4.queries == ["bo"]
      && var s5 := Handle(s4, Deliver([Bob, Bobby])).state;
      && s5.view == Rows([Row("1", "Bob", Bob), Row("2", "Bobby", Bobby)])
      && s5.items == [Bob, Bobby] && s5.doc == Doc(true, []) && s5.bound && s5.active == None
  {
    var s4 := Handle(Typed("bo", 2), TimerFires(2)).state;
    var rows := RenderRows(s4.config, [Bob, Bobby], 10);
    assert rows[0] == RowOf(s4.config, Bob);
    assert rows[1] == RowOf(s4.config, Bobby);
  }

  lemma HighlightAndAccept(s5: Session)
    requires s5.config == Configure(People) && s5.bound && s5.active == None
    requires s5.view == Rows([Row("1", "Bob", Bob), Row("2", "Bobby", Bobby)])
    requires s5.items == [Bob, Bobby] && s5.doc == Doc(true, [])
    ensures var s6 := Handle(s5, KeyDown(DownKey)).state;
      && s6.active == Some(0)
      && var s7 := Handle(s6, KeyUp(EnterKey, [Dummy, 'b', 'o'])).state;
      && !s7.bound
      && s7.doc.written == [Markup("<span data-tagging-id=\"1\">Bob</span>")]
  {
    var s6 := Handle(s5, KeyDown(DownKey)).state;
    assert ActiveRow(s6) == Some(Row("1", "Bob", Bob));
    assert KeyMatches(s6.items[0], "id", "1");
    assert ItemForKey(s6, "1") == Some(Bob);
    assert Attr(Bob, "id") == "1" && Attr(Bob, "name") == "Bob";
    assert FormatDefault(s6.config, Bob) == TagOpen + "1" + TagMiddle + "Bob" + TagClose;
    assert TagOpen + "1" + TagMiddle + "Bob" + TagClose == "<span data-tagging-id=\"1\">Bob</span>";
  }

  /** "@" typed after a space opens a session; "bo" is typed; the source
      answers Bob and Bobby; down arrow highlights Bob; Enter writes Bob's
      span in place of the placeholder and closes the session. */
  lemma PickFirstSuggestion()
    ensures Start([People], '@', Some("hi "), 3).Some?
    ensures var s0 := Start([People], '@', Some("hi "), 3).value;
      var s3 := Handle(Handle(Handle(s0, KeyUp(50, [Dummy])).state,
                              KeyUp(66, [Dummy, 'b'])).state, KeyUp(79, [Dummy, 'b', 'o'])).state;
      var s5 := Handle(Handle(s3, TimerFires(2)).state, Deliver([Bob, Bobby])).state;
      var s7 := Handle(Handle(s5, KeyDown(DownKey)).state, KeyUp(EnterKey, [Dummy, 'b', 'o'])).state;
      && s5.queries == ["bo"] && !s7.bound
      && s7.doc.written == [Markup("<span data-tagging-id=\"1\">Bob</span>")]
  {
    OpenAndType();
    FireAndShow();
    var s3 := Typed("bo", 2);
    var s5 := Handle(Handle(s3, TimerFires(2)).state, Deliver([Bob, Bobby])).state;
    HighlightAndAccept(s5);
  }

  /** A source answering nothing gets the empty message, not a blank list. */
  lemma NoResultsShowsEmptyMessage()
    ensures var s := Init(Configure(People));
      Handle(s, Deliver([])).state.view == Message("There are no results.")
  {
  }

  /** More results than the limit: only the first ten are shown, but all
      are stored. */
  lemma ResultsAreClipped(results: seq<Item>)
    requires |results| == 12
    ensures var r := Handle(Init(Configure(People)), Deliver(results)).state;
      && r.view.Rows? && |r.view.rows| == 10 && r.items == results
  {
  }

  /** A delimiter typed straight after a letter opens nothing. */
  lemma DelimiterAfterLetterIsIgnored()
    ensures Start([People], '@', Some("mail"), 4).None?
  {
  }
}
