/**
 * The onboarding dialogue of the motivator bot: the category table and the
 * keyboards built from it, the dispatch of callback tokens to handlers, the
 * parse of the category id and the confirmation text, and one transition
 * function per handler over the process-wide selection state.
 */
module Onboarding {
  import opened Wrappers
  import opened Strings
  import opened JsNumber

  /** An entry of the `categories` table. */
  datatype Category = Category(text: string, data: string)

  /** An inline button, `InlineKeyboard.text(text, data)`. */
  datatype Button = Button(text: string, data: string)

  /** An inline keyboard: rows of buttons. */
  type Keyboard = seq<seq<Button>>

  /** The sender of an update, `ctx.from`. */
  datatype User = User(firstName: string, id: int)

  /** The row handed to the `users` table's insert. */
  datatype UserRow = UserRow(firstName: string, telegramId: int, categoryId: Number, time: string)

  /** Why a handler's `try` block was left for its `catch`. */
  datatype Fault =
    /** `categories[categoryId - 1]` is undefined, so reading its `text` throws. */
    | UndefinedCategory

  /** What a handler does, in order. */
  datatype Effect =
    | Reply(text: string, markup: Option<Keyboard>)
    | EditText(text: string, markup: Option<Keyboard>)
    | Insert(row: UserRow)
    | LogError(fault: Fault)

  /** The two module-level variables. */
  datatype BotState = BotState(selectedCategory: string, selectedTime: string)

  const Initial: BotState := BotState("", "")

  /** The updates the bot reacts to. */
  datatype Event =
    | StartCommand
    | SelectCategoryCommand
    | CallbackQuery(data: string, from: User)

  /** A handler's new state and the effects it issues, in order. */
  datatype Transition = Transition(next: BotState, effects: seq<Effect>)

  // ---------------------------------------------------------------- tables

  const Categories: seq<Category> := [
    Category("Happiness \U{1F917}", "category1"),
    Category("Love \U{2764}\U{FE0F}", "category2"),
    Category("Hope \U{1F308}", "category3")
  ]

  const StartText: string :=
    "\n<b>What can this bot do?</b>\n\nTraining Practice Bot helps you practice and learn about new\n"
    + "Telegram Bot features in an easy and convenient way\n\n"
    + "About the Author: <a href=\"https://github.com/7FOX7\">https://github.com/7FOX7</a>\n\n"
    + "Contact <a href=\"mailto:kheeugene@gmail.com\">kheeugene@gmail.com</a> should you have any questions and concerns \n"

  const CategoryPrompt: string := "What category would you like to choose?"

  const TimePrompt: string := "At what time would you like to receive quotes?"

  /** The keyboard of the time prompt: one row per hour, then back. */
  const TimeMenu: Keyboard := [
    [Button("8:00 \U{1F557}", "8")],
    [Button("12:00 \U{1F55B}", "12")],
    [Button("18:00 \U{1F555}", "18")],
    [Button("< Back", "back")]
  ]

  /** `categories.map(...)`: one single-button row per category, in table order. */
  function MenuFrom(cats: seq<Category>): (k: Keyboard)
    ensures |k| == |cats|
    ensures forall i :: 0 <= i < |cats| ==> k[i] == [Button(cats[i].text, cats[i].data)]
  {
    if cats == [] then [] else [[Button(cats[0].text, cats[0].data)]] + MenuFrom(cats[1..])
  }

  /** `inlineButtons`. */
  function CategoryMenu(): Keyboard {
    MenuFrom(Categories)
  }

  /** Every token a keyboard of the bot can emit, row by row. */
  function Tokens(k: Keyboard): seq<string> {
    if k == [] then [] else TokensOfRow(k[0]) + Tokens(k[1..])
  }

  function TokensOfRow(row: seq<Button>): seq<string> {
    if row == [] then [] else [row[0].data] + TokensOfRow(row[1..])
  }

  function KeyboardTokens(): seq<string> {
    Tokens(CategoryMenu()) + Tokens(TimeMenu)
  }

  // -------------------------------------------------------------- dispatch

  /** The three callback handlers, named after what they handle. */
  datatype Handler = ChooseCategory | ChooseTime | Back

  /** The handlers in the order they are registered. */
  const Registered: seq<Handler> := [ChooseCategory, ChooseTime, Back]

  /**
   * Whether a handler's trigger accepts a token: `/category[1-3]/` and
   * `/8|12|18/` succeed when the token contains a match anywhere; the string
   * trigger "back" needs the whole token.
   */
  predicate Matches(h: Handler, data: string) {
    match h
    case ChooseCategory =>
      Contains(data, "category1") || Contains(data, "category2") || Contains(data, "category3")
    case ChooseTime =>
      Contains(data, "8") || Contains(data, "12") || Contains(data, "18")
    case Back =>
      data == "back"
  }

  /** The position of the first handler of `hs` whose trigger accepts `data`. */
  function FirstMatchIndex(hs: seq<Handler>, data: string): (r: Option<nat>)
    ensures r.Some? ==> r.value < |hs| && Matches(hs[r.value], data)
    ensures r.Some? ==> forall j :: 0 <= j < r.value ==> !Matches(hs[j], data)
    ensures r.None? ==> forall j :: 0 <= j < |hs| ==> !Matches(hs[j], data)
  {
    if hs == [] then None
    else if Matches(hs[0], data) then Some(0)
    else
      match FirstMatchIndex(hs[1..], data)
      case None => None
      case Some(i) => Some(i + 1)
  }

  /** The first handler of `hs` whose trigger accepts `data`. */
  function FirstMatch(hs: seq<Handler>, data: string): Option<Handler> {
    match FirstMatchIndex(hs, data)
    case None => None
    case Some(i) => Some(hs[i])
  }

  /** The handler grammY runs for a callback token: the first registered one that matches. */
  function Dispatch(data: string): Option<Handler> {
    FirstMatch(Registered, data)
  }

  /** The handlers whose triggers accept `data`, in registration order. */
  function MatchingHandlers(hs: seq<Handler>, data: string): (r: seq<Handler>)
    ensures forall h :: h in r <==> h in hs && Matches(h, data)
  {
    if hs == [] then []
    else (if Matches(hs[0], data) then [hs[0]] else []) + MatchingHandlers(hs[1..], data)
  }

  // -------------------------------------------------- id and confirmation

  /** `Number(selected.split("category")[1])`; a missing piece is `undefined`, hence NaN. */
  function ParseCategoryId(selected: string): Number {
    var pieces := Split(selected, "category");
    if |pieces| < 2 then NaN else ToNumber(pieces[1])
  }

  /** `categories[id - 1]`, `undefined` unless `id - 1` is an index of the table. */
  function CategoryAt(id: Number): Option<Category> {
    match id
    case NaN => None
    case Int(v) => if 1 <= v <= |Categories| then Some(Categories[v - 1]) else None
  }

  function ConfirmationText(c: Category, time: string): string {
    "Got it! You will be getting quotes about *" + c.text + "* at *" + time + ":00* every day!"
  }

  /** The confirmation template, or the fault its evaluation throws. */
  function Confirmation(id: Number, time: string): Result<string, Fault> {
    match CategoryAt(id)
    case None => Err(UndefinedCategory)
    case Some(c) => Ok(ConfirmationText(c, time))
  }

  // ------------------------------------------------------------- handlers

  /** `/start`: the welcome text, state untouched. */
  function OnStart(s: BotState): Transition {
    Transition(s, [Reply(StartText, None)])
  }

  /** `/select_category`: the category prompt as a new message. */
  function OnSelectCategory(s: BotState): Transition {
    Transition(s, [Reply(CategoryPrompt, Some(CategoryMenu()))])
  }

  /** `/category[1-3]/`: remember the token, then show the time prompt. */
  function OnCategoryChosen(s: BotState, data: string): Transition {
    Transition(s.(selectedCategory := data), [EditText(TimePrompt, Some(TimeMenu))])
  }

  /**
   * `/8|12|18/`: remember the token, insert the row, then edit in the
   * confirmation; a throw while building it is logged and nothing is shown.
   */
  function OnTimeChosen(s: BotState, data: string, from: User): Transition {
    var next := s.(selectedTime := data);
    var id := ParseCategoryId(next.selectedCategory);
    var insert := Insert(UserRow(from.firstName, from.id, id, next.selectedTime));
    match Confirmation(id, next.selectedTime)
    case Ok(text) => Transition(next, [insert, EditText(text, None)])
    case Err(f) => Transition(next, [insert, LogError(f)])
  }

  /** `"back"`: the category prompt again, in place of the time prompt. */
  function OnBack(s: BotState): Transition {
    Transition(s, [EditText(CategoryPrompt, Some(CategoryMenu()))])
  }

  /** A callback query: the dispatched handler, or nothing when no trigger accepts it. */
  function OnCallback(s: BotState, data: string, from: User): Transition {
    match Dispatch(data)
    case None => Transition(s, [])
    case Some(ChooseCategory) => OnCategoryChosen(s, data)
    case Some(ChooseTime) => OnTimeChosen(s, data, from)
    case Some(Back) => OnBack(s)
  }

  /** One update. */
  function Step(s: BotState, e: Event): Transition {
    match e
    case StartCommand => OnStart(s)
    case SelectCategoryCommand => OnSelectCategory(s)
    case CallbackQuery(data, from) => OnCallback(s, data, from)
  }

  /** The updates `es` handled one after another by `step`, with their effects in order. */
  function Fold(step: (BotState, Event) -> Transition, s: BotState, es: seq<Event>): Transition
    decreases |es|
  {
    if es == [] then Transition(s, [])
    else
      var first := step(s, es[0]);
      var rest := Fold(step, first.next, es[1..]);
      Transition(rest.next, first.effects + rest.effects)
  }

  /** A sequence of updates, handled one after another by the bot. */
  function Run(s: BotState, es: seq<Event>): Transition {
    Fold(Step, s, es)
  }
}
