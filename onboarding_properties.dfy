/** What the onboarding dialogue promises, stated over the transition functions. */
module OnboardingProperties {
  import opened Wrappers
  import opened Strings
  import opened JsNumber
  import opened Onboarding

  // ------------------------------------------------------------ keyboards

  /** `inlineButtons` holds one single-button row per category, in table order. */
  lemma CategoryMenuShape()
    ensures |CategoryMenu()| == |Categories|
    ensures forall i :: 0 <= i < |Categories| ==>
              CategoryMenu()[i] == [Button(Categories[i].text, Categories[i].data)]
  {
  }

  /** The category keyboard emits `category1`..`category3`, in that order. */
  lemma CategoryTokens()
    ensures Tokens(CategoryMenu()) == ["category1", "category2", "category3"]
  {
    var k := CategoryMenu();
    CategoryMenuShape();
    assert TokensOfRow(k[0]) == ["category1"];
    assert TokensOfRow(k[1]) == ["category2"];
    assert TokensOfRow(k[2]) == ["category3"];
    assert k[1..][1..][1..] == [];
    assert Tokens(k[1..][1..]) == ["category3"];
    assert Tokens(k[1..]) == ["category2", "category3"];
  }

  /** The time keyboard emits `8`, `12`, `18` and `back`, in that order. */
  lemma TimeTokens()
    ensures Tokens(TimeMenu) == ["8", "12", "18", "back"]
  {
  }

  // ------------------------------------------------------------- dispatch

  /** A pattern whose first character occurs in the text only as its last character is absent. */
  lemma FirstCharOnlyLast(s: string, p: string)
    requires |p| >= 2 && |s| >= 1 && p[0] !in s[..|s| - 1]
    ensures !Contains(s, p)
  {
  }

  /** A token `category` + digit holds none of the hour patterns. */
  lemma CategoryTokenAvoidsHours(d: char)
    requires '1' <= d <= '3'
    ensures !Contains("category" + [d], "8")
    ensures !Contains("category" + [d], "12")
    ensures !Contains("category" + [d], "18")
  {
    var t := "category" + [d];
    FirstCharAbsent(t, "8");
    assert t[..|t| - 1] == "category";
    FirstCharOnlyLast(t, "12");
    FirstCharOnlyLast(t, "18");
  }

  /** A token only the category trigger accepts has that handler as its one match. */
  lemma OnlyCategoryMatches(data: string)
    requires Matches(ChooseCategory, data) && !Matches(ChooseTime, data) && !Matches(Back, data)
    ensures MatchingHandlers(Registered, data) == [ChooseCategory]
  {
    assert Registered[1..] == [ChooseTime, Back];
    assert Registered[1..][1..] == [Back];
    assert MatchingHandlers([Back], data) == [];
    assert MatchingHandlers([ChooseTime, Back], data) == [];
  }

  lemma MatchesOfCategoryToken(t: string)
    requires t == "category1" || t == "category2" || t == "category3"
    ensures MatchingHandlers(Registered, t) == [ChooseCategory]
  {
    assert t == "category" + [t[8]];
    CategoryTokenAvoidsHours(t[8]);
    ContainsMiddle("", t, "");
    assert "" + t + "" == t;
    assert Matches(ChooseCategory, t);
    OnlyCategoryMatches(t);
  }

  lemma MatchesOfHourToken(t: string)
    requires t == "8" || t == "12" || t == "18"
    ensures MatchingHandlers(Registered, t) == [ChooseTime]
  {
    TooLongAbsent(t, "category1");
    TooLongAbsent(t, "category2");
    TooLongAbsent(t, "category3");
    ContainsMiddle("", t, "");
    assert "" + t + "" == t;
    assert Registered[1..] == [ChooseTime, Back];
    assert Registered[1..][1..] == [Back];
  }

  lemma MatchesOfBack()
    ensures MatchingHandlers(Registered, "back") == [Back]
  {
    TooLongAbsent("back", "category1");
    TooLongAbsent("back", "category2");
    TooLongAbsent("back", "category3");
    FirstCharAbsent("back", "8");
    FirstCharAbsent("back", "12");
    FirstCharAbsent("back", "18");
    assert Registered[1..] == [ChooseTime, Back];
    assert Registered[1..][1..] == [Back];
  }

  /** The seven tokens the two keyboards emit. */
  lemma KeyboardTokensAre()
    ensures KeyboardTokens() == ["category1", "category2", "category3", "8", "12", "18", "back"]
  {
    CategoryTokens();
    TimeTokens();
  }

  /** Each of the seven tokens the keyboards emit is accepted by exactly one trigger. */
  lemma TokensUnambiguous(t: string)
    requires t in KeyboardTokens()
    ensures |MatchingHandlers(Registered, t)| == 1
  {
    KeyboardTokensAre();
    if t == "category1" || t == "category2" || t == "category3" { MatchesOfCategoryToken(t); }
    else if t == "back" { MatchesOfBack(); }
    else { MatchesOfHourToken(t); }
  }

  /** The category keyboard's tokens are accepted by the category trigger alone. */
  lemma CategoryTokensMatchCategory(t: string)
    requires t in Tokens(CategoryMenu())
    ensures MatchingHandlers(Registered, t) == [ChooseCategory]
  {
    CategoryTokens();
    MatchesOfCategoryToken(t);
  }

  /** The time keyboard's hour tokens are accepted by the time trigger alone. */
  lemma HourTokensMatchTime(t: string)
    requires t in Tokens(TimeMenu) && t != "back"
    ensures MatchingHandlers(Registered, t) == [ChooseTime]
  {
    TimeTokens();
    MatchesOfHourToken(t);
  }

  /** A token only one trigger accepts is dispatched to that trigger's handler. */
  lemma DispatchOfUnique(data: string, h: Handler)
    requires MatchingHandlers(Registered, data) == [h]
    ensures Dispatch(data) == Some(h)
  {
    assert h in MatchingHandlers(Registered, data);
    var i :| 0 <= i < |Registered| && Registered[i] == h;
    var k := FirstMatchIndex(Registered, data).value;
    assert Registered[k] in MatchingHandlers(Registered, data);
  }

  /** When at most one trigger accepts a token, any registration order dispatches it alike. */
  lemma OrderIrrelevantWhenUnambiguous(hs: seq<Handler>, data: string)
    requires multiset(hs) == multiset(Registered)
    requires |MatchingHandlers(Registered, data)| <= 1
    ensures FirstMatch(hs, data) == Dispatch(data)
  {
    var m := MatchingHandlers(Registered, data);
    forall h | h in hs ensures h in Registered {
      assert h in multiset(hs);
    }
    forall h | h in Registered ensures h in hs {
      assert h in multiset(Registered);
    }
    if FirstMatchIndex(hs, data).Some? {
      var k := FirstMatchIndex(hs, data).value;
      assert hs[k] in Registered && hs[k] in m;
      assert FirstMatchIndex(Registered, data).Some?;
      var i := FirstMatchIndex(Registered, data).value;
      assert Registered[i] in m;
      assert m == [hs[k]] && m == [Registered[i]];
    } else {
      forall j | 0 <= j < |Registered| ensures !Matches(Registered[j], data) {
        assert Registered[j] in hs;
      }
      assert FirstMatchIndex(Registered, data).None?;
    }
  }

  /** Dispatch of the keyboards' tokens does not depend on the order the handlers are registered in. */
  lemma TokenDispatchOrderFree(hs: seq<Handler>, t: string)
    requires multiset(hs) == multiset(Registered)
    requires t in KeyboardTokens()
    ensures FirstMatch(hs, t) == Dispatch(t)
  {
    TokensUnambiguous(t);
    OrderIrrelevantWhenUnambiguous(hs, t);
  }

  lemma DispatchOfCategoryToken(t: string)
    requires t in Tokens(CategoryMenu())
    ensures Dispatch(t) == Some(ChooseCategory)
  {
    CategoryTokensMatchCategory(t);
    DispatchOfUnique(t, ChooseCategory);
  }

  lemma DispatchOfHourToken(t: string)
    requires t in Tokens(TimeMenu) && t != "back"
    ensures Dispatch(t) == Some(ChooseTime)
  {
    HourTokensMatchTime(t);
    DispatchOfUnique(t, ChooseTime);
  }

  lemma DispatchOfBack()
    ensures Dispatch("back") == Some(Back)
  {
    MatchesOfBack();
    DispatchOfUnique("back", Back);
  }

  /** A token outside the keyboards can match two triggers, and then order decides. */
  lemma AmbiguousTokenOutsideKeyboards()
    ensures Dispatch("category18") == Some(ChooseCategory)
    ensures FirstMatch([ChooseTime, ChooseCategory, Back], "category18") == Some(ChooseTime)
  {
    var t := "category18";
    assert t == "" + "category1" + "8";
    ContainsMiddle("", "category1", "8");
    assert t == "category1" + "8" + "";
    ContainsMiddle("category1", "8", "");
  }

  // --------------------------------------------------------- category ids

  /** `Number("category" + String(n).split("category")[1])` is n. */
  lemma ParseCategoryIdOfDecimal(n: nat)
    ensures ParseCategoryId("category" + DecimalString(n)) == Int(n)
  {
    var d := DecimalString(n);
    assert !IsDigit('c');
    assert 'c' !in d;
    FirstCharAbsent(d, "category");
    SplitAfterLeadingSeparator("category", d);
    DecimalRoundTrip(n);
  }

  /** The token of the Nth category parses to N, and N looks up the Nth table entry. */
  lemma CategoryTokenIsNthEntry(n: nat)
    requires 1 <= n <= |Categories|
    ensures ParseCategoryId(Categories[n - 1].data) == Int(n)
    ensures CategoryAt(Int(n)) == Some(Categories[n - 1])
  {
    assert Categories[n - 1].data == "category" + DecimalString(n);
    ParseCategoryIdOfDecimal(n);
  }

  /** A selection without `category` in it has no second piece, so its id is NaN. */
  lemma NoSeparatorIsNaN(selected: string)
    requires !Contains(selected, "category")
    ensures ParseCategoryId(selected) == NaN
  {
    SplitWithoutSeparator(selected, "category");
  }

  /** With no category chosen yet the id is NaN. */
  lemma NoCategoryIsNaN()
    ensures ParseCategoryId("") == NaN
  {
  }

  // ------------------------------------------------------------- handlers

  /** `/start` replies with the welcome text and leaves the state alone. */
  lemma StartLeavesState(s: BotState)
    ensures Step(s, StartCommand) == Transition(s, [Reply(StartText, None)])
  {
  }

  /**
   * `back` and `/select_category` show the same prompt with the same
   * keyboard, once as an edit and once as a new message; neither touches
   * the state.
   */
  lemma BackShowsCategoryMenu(s: BotState, from: User)
    ensures Step(s, CallbackQuery("back", from)) == Transition(s, [EditText(CategoryPrompt, Some(CategoryMenu()))])
    ensures Step(s, SelectCategoryCommand) == Transition(s, [Reply(CategoryPrompt, Some(CategoryMenu()))])
  {
    DispatchOfBack();
  }

  /** Any run of `back` presses leaves the state as it was and re-renders only the category menu. */
  lemma {:induction false} BackPresses(s: BotState, es: seq<Event>)
    requires forall k :: 0 <= k < |es| ==> es[k].CallbackQuery? && es[k].data == "back"
    ensures Run(s, es).next == s
    ensures |Run(s, es).effects| == |es|
    ensures forall k :: 0 <= k < |es| ==>
              Run(s, es).effects[k] == EditText(CategoryPrompt, Some(CategoryMenu()))
    decreases |es|
  {
    if es != [] {
      BackShowsCategoryMenu(s, es[0].from);
      BackPresses(s, es[1..]);
    }
  }

  /** A category choice records the token verbatim, keeps the time and shows the time prompt. */
  lemma CategoryChoice(s: BotState, data: string, from: User)
    requires Dispatch(data) == Some(ChooseCategory)
    ensures Step(s, CallbackQuery(data, from)).next == BotState(data, s.selectedTime)
    ensures Step(s, CallbackQuery(data, from)).effects == [EditText(TimePrompt, Some(TimeMenu))]
    ensures Tokens(TimeMenu) == ["8", "12", "18", "back"]
  {
    TimeTokens();
  }

  /** The confirmation names the category's text and the hour followed by ":00". */
  lemma ConfirmationNames(c: Category, time: string)
    ensures Contains(ConfirmationText(c, time), c.text)
    ensures Contains(ConfirmationText(c, time), time + ":00")
  {
    var before := "Got it! You will be getting quotes about *";
    var text := ConfirmationText(c, time);
    assert text == before + c.text + ("* at *" + time + ":00* every day!");
    ContainsMiddle(before, c.text, "* at *" + time + ":00* every day!");
    assert text == (before + c.text + "* at *") + (time + ":00") + "* every day!";
    ContainsMiddle(before + c.text + "* at *", time + ":00", "* every day!");
  }

  /**
   * A time choice records the token, inserts the sender's row with the id
   * parsed from the current category and that time, and only then either
   * edits in a confirmation naming the category and the hour or, when the id
   * names no category, logs the fault and shows nothing.
   */
  lemma TimeChoice(s: BotState, data: string, from: User)
    requires Dispatch(data) == Some(ChooseTime)
    ensures var tr := Step(s, CallbackQuery(data, from));
            var id := ParseCategoryId(s.selectedCategory);
            && tr.next == BotState(s.selectedCategory, data)
            && |tr.effects| == 2
            && tr.effects[0] == Insert(UserRow(from.firstName, from.id, id, data))
            && (tr.effects[1] == LogError(UndefinedCategory) <==> CategoryAt(id).None?)
            && (tr.effects[1].EditText? <==> CategoryAt(id).Some?)
            && (tr.effects[1].EditText? ==>
                  && tr.effects[1].markup.None?
                  && Contains(tr.effects[1].text, CategoryAt(id).value.text)
                  && Contains(tr.effects[1].text, data + ":00"))
  {
    var id := ParseCategoryId(s.selectedCategory);
    match CategoryAt(id) {
      case None =>
      case Some(c) => ConfirmationNames(c, data);
    }
  }

  /** Without an earlier category choice the row is still inserted, with id NaN, and the fault is logged after it. */
  lemma InsertPrecedesFailure(time: string, data: string, from: User)
    requires Dispatch(data) == Some(ChooseTime)
    ensures Step(BotState("", time), CallbackQuery(data, from))
            == Transition(BotState("", data), [Insert(UserRow(from.firstName, from.id, NaN, data)), LogError(UndefinedCategory)])
  {
    NoCategoryIsNaN();
  }

  /** A token no trigger accepts is not handled at all. */
  lemma UnmatchedIgnored(s: BotState, data: string, from: User)
    requires Dispatch(data) == None
    ensures Step(s, CallbackQuery(data, from)) == Transition(s, [])
  {
  }

  /** A single update run on its own is that update's step. */
  lemma RunOne(s: BotState, e: Event)
    ensures Run(s, [e]) == Step(s, e)
  {
    var first := Step(s, e);
    assert [e][1..] == [];
    assert Fold(Step, first.next, []) == Transition(first.next, []);
    assert first.effects + [] == first.effects;
  }

  /** Folding over two sequences of updates is folding over the first, then over the second from where it left off. */
  lemma {:induction false} FoldAppend(step: (BotState, Event) -> Transition, s: BotState, es1: seq<Event>, es2: seq<Event>)
    ensures var first := Fold(step, s, es1);
            var second := Fold(step, first.next, es2);
            Fold(step, s, es1 + es2) == Transition(second.next, first.effects + second.effects)
    decreases |es1|
  {
    if es1 == [] {
      assert es1 + es2 == es2;
    } else {
      assert (es1 + es2)[0] == es1[0];
      assert (es1 + es2)[1..] == es1[1..] + es2;
      FoldAppend(step, step(s, es1[0]).next, es1[1..], es2);
    }
  }

  /** Running two sequences of updates is running the first, then the second from where it left off. */
  lemma RunAppend(s: BotState, es1: seq<Event>, es2: seq<Event>)
    ensures var first := Run(s, es1);
            var second := Run(first.next, es2);
            Run(s, es1 + es2) == Transition(second.next, first.effects + second.effects)
  {
    FoldAppend(Step, s, es1, es2);
  }

  /** After the Nth category was chosen, an hour inserts id N and confirms the Nth category. */
  lemma TimeAfterCategory(time0: string, n: nat, time: string, from: User)
    requires 1 <= n <= |Categories|
    requires Dispatch(time) == Some(ChooseTime)
    ensures Step(BotState(Categories[n - 1].data, time0), CallbackQuery(time, from))
            == Transition(BotState(Categories[n - 1].data, time), [
                 Insert(UserRow(from.firstName, from.id, Int(n), time)),
                 EditText(ConfirmationText(Categories[n - 1], time), None)])
  {
    CategoryTokenIsNthEntry(n);
  }

  /**
   * When someone presses the Nth category button and then someone presses
   * an hour, the hour's sender is stored with id N and the Nth category is
   * confirmed at that hour.
   */
  lemma ChosenCategoryIsConfirmedBy(s: BotState, n: nat, time: string, chooser: User, sender: User)
    requires 1 <= n <= |Categories|
    requires Dispatch(time) == Some(ChooseTime)
    ensures Run(s, [CallbackQuery(Categories[n - 1].data, chooser), CallbackQuery(time, sender)])
            == Transition(BotState(Categories[n - 1].data, time), [
                 EditText(TimePrompt, Some(TimeMenu)),
                 Insert(UserRow(sender.firstName, sender.id, Int(n), time)),
                 EditText(ConfirmationText(Categories[n - 1], time), None)])
  {
    var c := CallbackQuery(Categories[n - 1].data, chooser);
    var h := CallbackQuery(time, sender);
    CategoryTokens();
    DispatchOfCategoryToken(Categories[n - 1].data);
    var mid := BotState(Categories[n - 1].data, s.selectedTime);
    assert Step(s, c) == Transition(mid, [EditText(TimePrompt, Some(TimeMenu))]);
    TimeAfterCategory(s.selectedTime, n, time, sender);
    RunOne(s, c);
    RunOne(mid, h);
    RunAppend(s, [c], [h]);
    assert [c] + [h] == [c, h];
  }

  /** Pressing the Nth category button and then an hour confirms the Nth category at that hour. */
  lemma ChosenCategoryIsConfirmed(s: BotState, n: nat, time: string, from: User)
    requires 1 <= n <= |Categories|
    requires Dispatch(time) == Some(ChooseTime)
    ensures Run(s, [CallbackQuery(Categories[n - 1].data, from), CallbackQuery(time, from)])
            == Transition(BotState(Categories[n - 1].data, time), [
                 EditText(TimePrompt, Some(TimeMenu)),
                 Insert(UserRow(from.firstName, from.id, Int(n), time)),
                 EditText(ConfirmationText(Categories[n - 1], time), None)])
  {
    ChosenCategoryIsConfirmedBy(s, n, time, from, from);
  }

  /** Choosing Love and then 12 stores category 2 at "12" and confirms Love at that hour. */
  lemma LoveAtNoon(u: User)
    ensures Run(Initial, [CallbackQuery("category2", u), CallbackQuery("12", u)])
            == Transition(BotState("category2", "12"), [
                 EditText(TimePrompt, Some(TimeMenu)),
                 Insert(UserRow(u.firstName, u.id, Int(2), "12")),
                 EditText(ConfirmationText(Categories[1], "12"), None)])
  {
    TimeTokens();
    DispatchOfHourToken("12");
    ChosenCategoryIsConfirmed(Initial, 2, "12", u);
  }

  /** The confirmation for Love at 12 names "Love ❤️" and "12:00". */
  lemma LoveAtNoonText()
    ensures ConfirmationText(Categories[1], "12")
            == "Got it! You will be getting quotes about *Love \U{2764}\U{FE0F}* at *12:00* every day!"
  {
  }

  // -------------------------------------------------------- shared state

  /** The state a handler leaves does not depend on who sent the update. */
  lemma SenderIrrelevantToState(s: BotState, data: string, a: User, b: User)
    ensures Step(s, CallbackQuery(data, a)).next == Step(s, CallbackQuery(data, b)).next
  {
  }

  /**
   * The selection is process-wide: when user `b` chooses category M between
   * user `a`'s choice of category N and `a`'s choice of an hour, `a`'s row
   * and confirmation carry category M.
   */
  lemma SelectionIsShared(s: BotState, a: User, b: User, n: nat, m: nat, time: string)
    requires 1 <= n <= |Categories| && 1 <= m <= |Categories|
    requires Dispatch(time) == Some(ChooseTime)
    ensures Run(s, [CallbackQuery(Categories[n - 1].data, a), CallbackQuery(Categories[m - 1].data, b), CallbackQuery(time, a)])
            == Transition(BotState(Categories[m - 1].data, time), [
                 EditText(TimePrompt, Some(TimeMenu)),
                 EditText(TimePrompt, Some(TimeMenu)),
                 Insert(UserRow(a.firstName, a.id, Int(m), time)),
                 EditText(ConfirmationText(Categories[m - 1], time), None)])
  {
    var first := CallbackQuery(Categories[n - 1].data, a);
    var tail := [CallbackQuery(Categories[m - 1].data, b), CallbackQuery(time, a)];
    var mid := BotState(Categories[n - 1].data, s.selectedTime);
    CategoryTokens();
    DispatchOfCategoryToken(Categories[n - 1].data);
    RunOne(s, first);
    ChosenCategoryIsConfirmedBy(mid, m, time, b, a);
    RunAppend(s, [first], tail);
    assert [first] + tail == [first, CallbackQuery(Categories[m - 1].data, b), CallbackQuery(time, a)];
  }
}
