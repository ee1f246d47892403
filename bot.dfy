/**
 * The bot as the program runs it: the two module-level variables are the
 * fields of one object, and each registered handler is a method that
 * updates them in place and returns the effects it issues, in order.
 */
module BotRuntime {
  import opened Wrappers
  import opened Onboarding

  class Bot {
    /** `selectedCategory`: the token of the last category pressed by anyone. */
    var selectedCategory: string
    /** `selectedTime`: the token of the last hour pressed by anyone. */
    var selectedTime: string

    /** The fields as the value the transition functions work on. */
    function State(): BotState
      reads this
    {
      BotState(selectedCategory, selectedTime)
    }

    /** Both variables start out empty. */
    constructor ()
      ensures selectedCategory == "" && selectedTime == ""
      ensures State() == Initial
    {
      selectedCategory := "";
      selectedTime := "";
    }

    /** `bot.command("start", ...)`: reply with the welcome text. */
    method Start() returns (effects: seq<Effect>)
      ensures Transition(State(), effects) == OnStart(State())
      ensures effects == [Reply(StartText, None)]
    {
      effects := [Reply(StartText, None)];
    }

    /** `bot.command("select_category", ...)`: reply with the category prompt and `inlineButtons`. */
    method SelectCategory() returns (effects: seq<Effect>)
      ensures Transition(State(), effects) == OnSelectCategory(State())
      ensures effects == [Reply(CategoryPrompt, Some(CategoryMenu()))]
    {
      effects := [Reply(CategoryPrompt, Some(CategoryMenu()))];
    }

    /** `bot.callbackQuery(/category[1-3]/, ...)`: store the token, then edit in the time prompt. */
    method CategoryCallback(data: string) returns (effects: seq<Effect>)
      modifies this
      ensures selectedCategory == data && selectedTime == old(selectedTime)
      ensures effects == [EditText(TimePrompt, Some(TimeMenu))]
      ensures Transition(State(), effects) == OnCategoryChosen(old(State()), data)
    {
      selectedCategory := data;
      effects := [EditText(TimePrompt, Some(TimeMenu))];
    }

    /**
     * `bot.callbackQuery(/8|12|18/, ...)`: store the token, parse the id,
     * issue the insert, then build the confirmation; a throw while building
     * it lands in the `catch`, which logs it.
     */
    method TimeCallback(data: string, from: User) returns (effects: seq<Effect>)
      modifies this
      ensures selectedTime == data && selectedCategory == old(selectedCategory)
      ensures |effects| == 2
      ensures effects[0] == Insert(UserRow(from.firstName, from.id, ParseCategoryId(old(selectedCategory)), data))
      ensures effects[1].LogError? <==> CategoryAt(ParseCategoryId(old(selectedCategory))).None?
      ensures Transition(State(), effects) == OnTimeChosen(old(State()), data, from)
    {
      selectedTime := data;
      var categoryId := ParseCategoryId(selectedCategory);
      effects := [Insert(UserRow(from.firstName, from.id, categoryId, selectedTime))];
      var confirmation := Confirmation(categoryId, selectedTime);
      match confirmation {
        case Ok(text) =>
          effects := effects + [EditText(text, None)];
        case Err(fault) =>
          effects := effects + [LogError(fault)];
      }
    }

    /** `bot.callbackQuery("back", ...)`: edit the category prompt and `inlineButtons` back in. */
    method BackCallback() returns (effects: seq<Effect>)
      ensures Transition(State(), effects) == OnBack(State())
      ensures effects == [EditText(CategoryPrompt, Some(CategoryMenu()))]
    {
      effects := [EditText(CategoryPrompt, Some(CategoryMenu()))];
    }

    /** A callback query: the first registered handler whose trigger accepts the token runs. */
    method Callback(data: string, from: User) returns (effects: seq<Effect>)
      modifies this
      ensures Transition(State(), effects) == OnCallback(old(State()), data, from)
    {
      var handler := Dispatch(data);
      match handler {
        case None =>
          effects := [];
        case Some(ChooseCategory) =>
          effects := CategoryCallback(data);
        case Some(ChooseTime) =>
          effects := TimeCallback(data, from);
        case Some(Back) =>
          effects := BackCallback();
      }
    }

    /** One update, routed to its handler. */
    method Handle(e: Event) returns (effects: seq<Effect>)
      modifies this
      ensures Transition(State(), effects) == Step(old(State()), e)
    {
      match e {
        case StartCommand =>
          effects := Start();
        case SelectCategoryCommand =>
          effects := SelectCategory();
        case CallbackQuery(data, from) =>
          effects := Callback(data, from);
      }
    }
  }
}
