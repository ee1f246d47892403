# Motivator bot onboarding dialogue, modelled in Dafny

The motivator bot is a Telegram bot (grammY) that asks a user for a quote
category and a daily hour and stores the choice in a `users` table. This
project models the bot's onboarding dialogue in `index.js`:

- the `categories` table and the `inlineButtons` keyboard built from it;
- the fixed time keyboard (`8`, `12`, `18`, `back`);
- the two module-level variables `selectedCategory` and `selectedTime`;
- the handlers for `/start`, `/select_category` and the three callback triggers
  `/category[1-3]/`, `/8|12|18/` and `"back"`, dispatched in registration order;
- the category id parse `Number(selectedCategory.split("category")[1])`;
- the confirmation template and the error path taken when it throws.

Files and modules:

- `wrappers.dfy` (`Wrappers`): `Option` and `Result`.
- `strings.dfy` (`Strings`): substring search, which is what an unanchored
  regular expression made of literals tests, and `String.prototype.split` with
  a string separator, together with its inverse `Join`.
- `js_number.dfy` (`JsNumber`): `Number(string)` for trimmed, optionally signed
  decimal integers. `DecimalString` is its inverse.
- `onboarding.dfy` (`Onboarding`): the tables, keyboards, trigger matching and
  dispatch, id parse, table lookup and confirmation. It also holds one pure
  transition function per handler (`OnStart` … `OnBack`, `Step`) and `Run`,
  which hands updates one after another to the handlers.
- `onboarding_properties.dfy` (`OnboardingProperties`): the lemmas that state
  what the dialogue promises.
- `bot.dfy` (`BotRuntime`): the class `Bot`. Its two fields are the
  module-level variables, and it has one method per handler. Each method
  updates the fields in place, returns the effects it issues in order, and is
  proved equal to its transition function.

A handler's output is an ordered list of effects. An effect is a reply, an
edit of the prompt message, an insert of a `users` row, or a logged error.
Because the list is ordered, "the insert is issued before the confirmation is
built" is something the model can state. Nothing is sent anywhere.

The design documentation of this system describes one conversation state per
subscriber, a delivery scheduler and a feedback dialogue. `index.js` has none
of these. It keeps a single selection for the whole process, which every
user's button presses overwrite. The model follows the code:
`SelectionIsShared` proves that one user's choice reaches another user's
stored row.

## Model

| member | source | states |
|---|---|---|
| Strings.FirstOccurrence | index.js:80-93 | the result is the leftmost position where the pattern occurs, or none exactly when it occurs nowhere (what the regex triggers test) |
| Strings.Split | index.js:97 | `split` with a non-empty separator: joining the pieces with the separator gives the input back, no piece contains the separator, and the first piece ends at the leftmost occurrence (a single piece exactly when there is none) |
| Strings.SplitAfterLeadingSeparator | index.js:97 | `("category" + t).split("category")` is `["", t]` when `t` holds no `category` |
| JsNumber.DecimalRoundTrip | index.js:97 | `Number(String(n))` is `n` for every natural number |
| JsNumber.NegativeRoundTrip | index.js:97 | `Number("-" + String(n))` is `-n` |
| JsNumber.ForeignCharIsNaN | index.js:97 | a string holding a character that is not a digit, a sign or white space converts to NaN |
| Onboarding.MenuFrom | index.js:47-50 | `categories.map`: one row per entry, each row a single button with that entry's text and data, in table order |
| Onboarding.FirstMatchIndex | index.js:80-119 | the chosen handler accepts the token and no handler registered before it does; none is chosen only when no handler accepts it |
| Onboarding.MatchingHandlers | index.js:80-119 | exactly the registered handlers whose trigger accepts the token |
| JsNumber.ToNumber | index.js:97 | `Number(string)`; DecimalRoundTrip and NegativeRoundTrip say it inverts the decimal spelling, ForeignCharIsNaN says which strings give NaN |
| Onboarding.Matches | index.js:80-115 | the three triggers: substring tests for `/category[1-3]/` and `/8|12|18/`, equality for `"back"`; CategoryTokensMatchCategory, HourTokensMatchTime, DispatchOfBack and AmbiguousTokenOutsideKeyboards state what each accepts |
| Onboarding.Dispatch | index.js:80-119 | the first registered handler whose trigger accepts the token (FirstMatchIndex); TokensUnambiguous and TokenDispatchOrderFree say the keyboards' tokens go to one handler whatever the order |
| Onboarding.ParseCategoryId | index.js:97 | `Number(selected.split("category")[1])`; ParseCategoryIdOfDecimal gives `"category" + String(n)` the id n, NoSeparatorIsNaN and NoCategoryIsNaN give NaN |
| Onboarding.CategoryAt | index.js:106 | `categories[id - 1]`; CategoryTokenIsNthEntry says id N is the Nth entry, TimeChoice that an undefined lookup logs the fault |
| Onboarding.ConfirmationText | index.js:106 | the confirmation template; ConfirmationNames says it contains the category text and the hour followed by `:00`, LoveAtNoonText gives one instance in full |
| Onboarding.Confirmation | index.js:106-111 | the template or the fault its evaluation throws; TimeChoice states both outcomes and when each happens |
| Onboarding.CategoryMenu | index.js:31-50 | `inlineButtons` built from the `categories` table; CategoryMenuShape and CategoryTokens state its rows and tokens |
| Onboarding.OnStart | index.js:19-71 | the `/start` handler with the welcome text; StartLeavesState |
| Onboarding.OnSelectCategory | index.js:74-78 | the `/select_category` handler; BackShowsCategoryMenu |
| Onboarding.OnCategoryChosen | index.js:80-91 | the category handler with the time keyboard; CategoryChoice and TimeTokens |
| Onboarding.OnTimeChosen | index.js:93-113 | the time handler; TimeChoice, InsertPrecedesFailure and TimeAfterCategory |
| Onboarding.OnBack | index.js:115-119 | the back handler; BackShowsCategoryMenu and BackPresses |
| Onboarding.OnCallback | index.js:80-119 | a callback routed by Dispatch; UnmatchedIgnored for tokens no trigger accepts |
| Onboarding.Step | index.js:64-119 | one update routed to its handler; SenderIrrelevantToState |
| Onboarding.Run | index.js:15-119 | updates handled one after another over the shared variables; RunAppend composes runs, SelectionIsShared and ChosenCategoryIsConfirmedBy are stated over it |
| OnboardingProperties.CategoryMenuShape | index.js:31-50 | `inlineButtons` has one single-button row per category, in table order, with the category's text and data |
| OnboardingProperties.CategoryTokens | index.js:31-50 | the category keyboard emits `category1`, `category2`, `category3`, in that order |
| OnboardingProperties.TimeTokens | index.js:83-88 | the time keyboard emits `8`, `12`, `18`, `back`, in that order |
| OnboardingProperties.TokensUnambiguous | index.js:80-115 | each of the seven tokens the keyboards emit is accepted by exactly one of the three triggers |
| OnboardingProperties.CategoryTokensMatchCategory | index.js:80 | every category token is accepted by the category trigger and by no other |
| OnboardingProperties.HourTokensMatchTime | index.js:93 | `8`, `12` and `18` are accepted by the time trigger and by no other |
| OnboardingProperties.DispatchOfBack | index.js:115 | the token `back` is dispatched to the back handler |
| OnboardingProperties.DispatchOfUnique | index.js:80-119 | a token accepted by only one trigger is dispatched to that trigger's handler |
| OnboardingProperties.OrderIrrelevantWhenUnambiguous | index.js:80-119 | when at most one trigger accepts a token, every registration order of the three handlers dispatches it alike |
| OnboardingProperties.TokenDispatchOrderFree | index.js:80-119 | for the keyboards' tokens, dispatch does not depend on registration order |
| OnboardingProperties.AmbiguousTokenOutsideKeyboards | index.js:80-93 | `category18` matches two triggers: registered order picks the category handler, the reversed order would pick the time handler |
| OnboardingProperties.ParseCategoryIdOfDecimal | index.js:97 | the id parsed from `"category" + String(n)` is `n` |
| OnboardingProperties.CategoryTokenIsNthEntry | index.js:97-106 | the Nth category's token parses to N, and `categories[N - 1]` is the Nth entry |
| OnboardingProperties.NoSeparatorIsNaN | index.js:97 | a selection that does not contain `category` has no second piece, so its id is NaN |
| OnboardingProperties.NoCategoryIsNaN | index.js:15-97 | before any category choice (`""`) the parsed id is NaN |
| OnboardingProperties.StartLeavesState | index.js:64-71 | `/start` replies with the fixed welcome text and changes neither variable |
| OnboardingProperties.BackShowsCategoryMenu | index.js:74-119 | `back` edits in the same prompt and `inlineButtons` that `/select_category` replies with, and neither changes the state |
| OnboardingProperties.BackPresses | index.js:115-119 | any number of `back` presses leaves the state unchanged and renders only the category menu, once per press |
| OnboardingProperties.CategoryChoice | index.js:80-91 | a category token is stored verbatim, `selectedTime` is kept, and the time prompt with rows `8`, `12`, `18`, `back` is shown |
| OnboardingProperties.ConfirmationNames | index.js:106 | the confirmation contains the category's text and the hour followed by `:00` |
| OnboardingProperties.TimeChoice | index.js:93-113 | an hour token is stored and the sender's row (first name, id, parsed id, hour) is inserted first. Then either a confirmation naming the category and hour is edited in, or, exactly when the id names no category, the fault is logged and nothing is shown |
| OnboardingProperties.InsertPrecedesFailure | index.js:95-111 | with no category chosen the row is still inserted, with id NaN, before the fault is logged |
| OnboardingProperties.UnmatchedIgnored | index.js:80-119 | a token no trigger accepts changes nothing and issues nothing |
| OnboardingProperties.TimeAfterCategory | index.js:93-108 | after the Nth category was chosen, an hour inserts id N and confirms the Nth category's text at that hour |
| OnboardingProperties.ChosenCategoryIsConfirmedBy | index.js:80-108 | a category press by anyone followed by an hour press stores the hour's sender with that category's id, and confirms it |
| OnboardingProperties.ChosenCategoryIsConfirmed | index.js:80-108 | pressing the Nth category and then an hour yields the time prompt, the insert with id N, then the confirmation, in that order |
| OnboardingProperties.LoveAtNoon | index.js:80-108 | choosing Love and then 12 stores `category2` and `12` and inserts id 2 at `12` |
| OnboardingProperties.LoveAtNoonText | index.js:106 | the confirmation for Love at 12 reads "... *Love ❤️* at *12:00* every day!" |
| OnboardingProperties.SenderIrrelevantToState | index.js:81-96 | the state a callback leaves does not depend on who sent it |
| OnboardingProperties.SelectionIsShared | index.js:15-16 | when user B chooses category M between user A's category choice and A's hour, A's row carries id M and A is confirmed category M |
| BotRuntime.Bot.constructor | index.js:15-16 | both variables start as `""` |
| BotRuntime.Bot.Start | index.js:64-71 | replies with the welcome text, changes nothing |
| BotRuntime.Bot.SelectCategory | index.js:74-78 | replies with the category prompt and `inlineButtons`, changes nothing |
| BotRuntime.Bot.CategoryCallback | index.js:80-91 | sets `selectedCategory` to the token, keeps `selectedTime`, and edits in the time prompt |
| BotRuntime.Bot.TimeCallback | index.js:93-113 | sets `selectedTime` to the token and keeps `selectedCategory`. It issues the insert first, then the confirmation, or a logged fault exactly when the id names no category |
| BotRuntime.Bot.BackCallback | index.js:115-119 | edits in the category prompt and `inlineButtons`, changes nothing |
| BotRuntime.Bot.Callback | index.js:80-119 | runs the first registered handler that accepts the token, as `OnCallback` describes |
| BotRuntime.Bot.Handle | index.js:64-119 | handles one update exactly as `Step` describes, both the new fields and the effects |

## Left out

- Creating the Supabase client and performing the insert (index.js:4-10, 98-105) are a network call. The model emits the row as an `Insert` effect. The insert's outcome is not modelled, and the handler does not inspect it.
- The grammY `Bot`, `hydrate`, `setMyCommands`, `bot.start()` polling and the transport behind `reply`/`editMessageText` (index.js:2-3, 12-13, 53-62, 134) are library plumbing and I/O. Replies and edits are effects that are not sent.
- A failure of the confirmation edit itself (a transport error caught at index.js:110-112) is not modelled. The model emits the edit, and what the transport does with it is outside the model.
- `bot.catch` (index.js:121-132) only classifies and logs library errors. It is not modelled.
- Parse modes, HTML and Markdown markup, and link-preview options (index.js:19-28, 65-69, 106-108) are transport formatting. Texts are kept as opaque strings.
- The suspension at each `await` is not modelled. Each handler runs as one sequential step, and updates are handled one after another (`Run`).
- JsNumber.ToNumber: converts to an exact integer, whereas JavaScript's `Number` rounds to the nearest double. From 2^53 on the two can differ: `"9007199254740993"` is 9007199254740993 here and 9007199254740992 in JavaScript, and very long digit strings become `Infinity` in JavaScript. Strings with a fraction, an exponent, a hex, octal or binary prefix, or `Infinity` convert to NaN here, whereas JavaScript gives them a numeric value. None of the tokens on the bot's keyboards has these forms, but a client can send callback data that no button carries. For `category1e0` JavaScript confirms Happiness where the model logs a fault, and for `category9007199254740993category1` the inserted `categoryId` differs.
- Scheduling, quote delivery, ratings, feedback and per-user sessions do not exist in `index.js`, and the model does not invent them.
