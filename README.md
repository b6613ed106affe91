# React demo state machines, modelled in Dafny

This project models the small, deterministic pieces of logic in a set of React
teaching demos and proves their properties. Each handler is one atomic step on explicit state:

- **Bank account** (`banking.dfy`, module `Banking`). The pure `bankingReducer` works over `{ balance }`. Its actions are `DEPOSIT`, `WITHDRAW`, `RESET`, and anything else is a no-op. The guarded `handleAction` dispatches to the reducer and records `lastAction`. The reducer is a function. The component is the class `BankAccount` with the fields `state` and `lastAction`. This model proves that every balance reachable from mount is non-negative.
- **Contact form** (`contact.dfy`, module `Contact`). The model covers JavaScript's white-space set, `trim`, and the unanchored email pattern `/\S+@\S+\.\S+/`. The regex's meaning is written out as the ghost predicate `PatternOccurs`, and it is proved to agree with the executable check `EmailTest`. `handleSubmit` and `handleInputChange` are methods of the class `ContactForm`.
- **Slide navigator** (`slide_show.dfy`, module `SlideShow`). The class `Slides` has a bounded `activeIndex` with restart, prev and next.
- **Feedback counters** (`feedback.dfy`, module `Feedback`). The class `FeedbackSystem` holds two length-5 arrays of vote counts. Ghost call counters show that each array's sum is the number of times its handler has run.
- **Counter** (`counter.dfy`, module `CounterDemo`): increment, decrement and reset.
- **Auth store** (`auth.dfy`, module `Auth`): a nullable user with `login` and `logout`.
- **Theme store** (`theme.dfy`, module `Theme`) and **language store** (`language.dfy`, module `Language`). Each is a pure updater function plus a provider class holding the current string.
- **Translation table** (`header.dfy`, module `Translations`): the `en`/`es` table and the lookup `translations[language]`.

Amounts are whole numbers of cents (`int`). `null`/`undefined` are `Option.None` (`wrappers.dfy`).

Two points where the code is looser than a reader might expect; the model follows the code:

- The reducer itself does not require a positive amount. A `WITHDRAW` with a negative payload passes its check and raises the balance. Only `handleAction` rejects non-positive amounts.
- Theme and language are strings, not enumerations. The updaters send every value other than `"light"` (resp. `"en"`) to `"light"` (resp. `"en"`). The provider classes keep the invariant that the value is one of the two.

## Model

| member | source | states |
|---|---|---|
| `Banking.BankingReducer` | src/components/program/BankAccount.jsx:9-25 | A solvent balance stays solvent unless a negative amount is deposited. A withdrawal leaves the state unchanged exactly when it would overdraw or is zero. |
| `Banking.DepositAdds` | src/components/program/BankAccount.jsx:11-12 | DEPOSIT yields `balance + payload` |
| `Banking.OverdraftRejected` | src/components/program/BankAccount.jsx:16 | WITHDRAW with `payload > balance` returns the state unchanged |
| `Banking.WithdrawSubtracts` | src/components/program/BankAccount.jsx:16-17 | WITHDRAW with `payload <= balance` yields `balance - payload`. A non-negative balance with a non-negative payload stays non-negative. |
| `Banking.ResetIsIdempotent` | src/components/program/BankAccount.jsx:19-20 | RESET yields `{balance: 0}` from any state, and RESET twice equals RESET once |
| `Banking.UnknownActionIsNoOp` | src/components/program/BankAccount.jsx:22-23 | an unrecognised action type returns the state unchanged |
| `Banking.DepositWithdrawResetScenario` | src/components/program/BankAccount.jsx:4-25 | The scenario is deposit 100, withdraw 150, withdraw 40, reset. It gives 100, then 100 (refused), then 60, then 0. |
| `Banking.Record` | src/components/program/BankAccount.jsx:38-44 | the `lastAction` record carries the amount for deposit/withdraw and no amount for reset |
| `Banking.Dispatches` | src/components/program/BankAccount.jsx:36-42 | the three guards of `handleAction` (positive deposit, positive affordable withdrawal, reset); their effect is stated by `HandleStep`, `HandleActionRejects` and `HandleActionEffect` |
| `Banking.HandleStep` | src/components/program/BankAccount.jsx:35-46 | `handleAction` keeps the balance non-negative, and when no guard admits the call it changes nothing |
| `Banking.HandleActionRejects` | src/components/program/BankAccount.jsx:36-45 | DEPOSIT/WITHDRAW with `payload <= 0`, or WITHDRAW with `payload > balance`, leaves balance and `lastAction` unchanged |
| `Banking.HandleActionEffect` | src/components/program/BankAccount.jsx:36-45 | An admitted action sets the balance and records `lastAction` as `{deposit, amount}`, `{withdraw, amount}` or `{reset}`. For deposit and withdraw the balance is `balance ± amount`; for reset it is 0. |
| `Banking.ReachableBalanceNonNegative` | src/components/program/BankAccount.jsx:35-46 | from a non-negative balance, every sequence of `handleAction` calls keeps the balance non-negative |
| `Banking.FromMountBalanceNonNegative` | src/components/program/BankAccount.jsx:4-46 | every balance reachable from the initial state is non-negative |
| `Banking.BankAccount.constructor` | src/components/program/BankAccount.jsx:4-33 | the account starts with balance 0 and no last action |
| `Banking.BankAccount.HandleAction` | src/components/program/BankAccount.jsx:35-46 | the class's handler performs exactly the step `HandleStep` and preserves solvency |
| `Contact.Trim` | src/components/program/ContactForm.jsx:14 | `x.trim()`; its meaning is given by `TrimStartSpec`, `TrimEndSpec` and `TrimEmptyIffBlank` |
| `Contact.TrimStartSpec` | src/components/program/ContactForm.jsx:14 | the result is a suffix of the input, everything dropped is white space, and the result does not start with white space |
| `Contact.TrimEndSpec` | src/components/program/ContactForm.jsx:14 | the result is a prefix of the input, everything dropped is white space, and the result does not end with white space |
| `Contact.TrimEmptyIffBlank` | src/components/program/ContactForm.jsx:14 | `x.trim()` is empty exactly when `x` consists only of white space |
| `Contact.EmailTest` | src/components/program/ContactForm.jsx:21-22 | `emailRegex.test(email)`; its meaning is given by `EmailTestIsPattern` |
| `Contact.EmailTestIsPattern` | src/components/program/ContactForm.jsx:21-22 | The executable check succeeds exactly when `/\S+@\S+\.\S+/` matches somewhere in the string (the pattern is unanchored). |
| `Contact.PairGivesPattern` | src/components/program/ContactForm.jsx:21 | an `@`/`.` pair found by the check yields a regex match |
| `Contact.PatternGivesPair` | src/components/program/ContactForm.jsx:21 | every regex match yields an `@`/`.` pair the check finds |
| `Contact.NoAtFails` | src/components/program/ContactForm.jsx:21-22 | a string with no `@` fails the email check |
| `Contact.Validate` | src/components/program/ContactForm.jsx:14-26 | the three-way decision of `handleSubmit`, blank fields first; its meaning is given by `ValidateMeaning` |
| `Contact.ValidateMeaning` | src/components/program/ContactForm.jsx:14-26 | The result is "missing" exactly when some field is blank. It is "invalid email" exactly when no field is blank and the regex does not match. Otherwise it is "accepted". |
| `Contact.BlankTakesPrecedence` | src/components/program/ContactForm.jsx:14-26 | a blank name or message is reported as missing whatever the email is |
| `Contact.Entries.With` | src/components/program/ContactForm.jsx:39-40 | setting one field changes that field only |
| `Contact.ContactForm.constructor` | src/components/program/ContactForm.jsx:4-8 | all fields and the error start empty, `submittedData` null |
| `Contact.ContactForm.HandleSubmit` | src/components/program/ContactForm.jsx:10-36 | A blank field sets the error "All fields are required.". A bad email sets "Invalid email address". In both cases `submittedData` becomes null and the fields stay unchanged. On success the error is "", `submittedData` is the untrimmed pre-submit entries, and all three fields are "". |
| `Contact.ContactForm.HandleInputChange` | src/components/program/ContactForm.jsx:39-42 | the typed field takes the new value, the error is "", and the other fields and `submittedData` are unchanged |
| `SlideShow.Slides.constructor` | src/components/program/Slides.jsx:3-5 | the index starts at 0 |
| `SlideShow.Slides.CurrentSlide` | src/components/program/Slides.jsx:8 | for non-empty `slides`, fixed since mount, `slides[activeIndex]` is defined and is one of the slides |
| `SlideShow.Slides.HandleRestart` | src/components/program/Slides.jsx:11-13 | restart sets the index to 0 from any index |
| `SlideShow.Slides.HandlePrev` | src/components/program/Slides.jsx:15-19 | prev decrements only when the index is above 0 and keeps it in range |
| `SlideShow.Slides.HandleNext` | src/components/program/Slides.jsx:21-25 | next increments only below `slides.length - 1` and keeps it in range |
| `SlideShow.Slides.NextThenPrev` | src/components/program/Slides.jsx:15-25 | from any index below the last, next then prev returns to it |
| `Feedback.SumBump` | src/components/program/CodeReviewFeedback.jsx:17 | bumping one cell by one raises the array's total by exactly one |
| `Feedback.SumZeros` | src/components/program/CodeReviewFeedback.jsx:12-13 | an all-zero array sums to zero |
| `Feedback.FeedbackSystem.constructor` | src/components/program/CodeReviewFeedback.jsx:3-13 | one counter per aspect (five), both arrays start as five zeros |
| `Feedback.FeedbackSystem.HandleUpvote` | src/components/program/CodeReviewFeedback.jsx:15-19 | `upvotes[i]` rises by exactly one, every other cell and all of `downvotes` are unchanged, lengths stay five, and the sum equals the number of upvote calls |
| `Feedback.FeedbackSystem.HandleDownvote` | src/components/program/CodeReviewFeedback.jsx:21-25 | `downvotes[i]` rises by exactly one, every other cell and all of `upvotes` are unchanged, lengths stay five, and the sum equals the number of downvote calls |
| `CounterDemo.Counter.constructor` | src/components/program/Counter.jsx:4 | the count starts at 0 |
| `CounterDemo.Counter.Increment` | src/components/program/Counter.jsx:6 | increment yields `count + 1` |
| `CounterDemo.Counter.Decrement` | src/components/program/Counter.jsx:7 | decrement yields `count - 1`, with no lower bound |
| `CounterDemo.Counter.Reset` | src/components/program/Counter.jsx:8 | reset yields 0 from any count |
| `CounterDemo.Counter.IncrementThenDecrement` | src/components/program/Counter.jsx:6-7 | increment then decrement returns the original count |
| `CounterDemo.Counter.ResetTwice` | src/components/program/Counter.jsx:8 | reset is idempotent |
| `CounterDemo.DecrementBelowZero` | src/components/program/Counter.jsx:4-7 | a fresh counter decremented once is at -1 |
| `Auth.AuthProvider.constructor` | src/components/program/AuthContextProvider.jsx:8 | the user starts as null |
| `Auth.AuthProvider.Login` | src/components/program/AuthContextProvider.jsx:11-13 | login sets the user to `{name, role: 'Admin'}` regardless of any previous user |
| `Auth.AuthProvider.Logout` | src/components/program/AuthContextProvider.jsx:16-18 | logout sets the user to null and keeps the "every user is Admin" invariant |
| `Auth.AuthProvider.LogoutTwice` | src/components/program/AuthContextProvider.jsx:16-18 | logging out twice equals logging out once |
| `Auth.LoginLogoutScenario` | src/components/program/AuthContext.jsx:71 | login as "Ratnesh Singh" gives that Admin user, and a subsequent logout returns to null |
| `Theme.NextTheme` | src/components/program/ThemeContext.jsx:16 | The toggle sends "light" to "dark" and every other value to "light". The result is always a theme and always differs from its input. |
| `Theme.ToggleTwiceRestores` | src/components/program/ThemeContext.jsx:16 | toggling twice restores any theme |
| `Theme.ThemeProvider.constructor` | src/components/program/ThemeContext.jsx:6-12 | the provider starts at "light", the same value as the context default |
| `Theme.ThemeProvider.ToggleTheme` | src/components/program/ThemeContext.jsx:15-17 | the theme becomes the toggle of the previous theme and stays in {"light", "dark"} |
| `Theme.ToggleScenario` | src/components/program/ThemeContext.jsx:12-17 | mount, toggle, toggle: light, dark, light |
| `Language.NextLanguage` | src/components/program/LanguageProvider.jsx:12 | The toggle sends "en" to "es" and every other value to "en". The result is always "en" or "es" and never equals its input. |
| `Language.ToggleTwiceRestores` | src/components/program/LanguageProvider.jsx:12 | toggling twice restores any language |
| `Language.LanguageProvider.constructor` | src/components/program/LanguageProvider.jsx:8 | the language starts as "en" |
| `Language.LanguageProvider.ToggleLanguage` | src/components/program/LanguageProvider.jsx:11-13 | the language becomes the toggle of the previous one and stays in {"en", "es"} |
| `Translations.TableKeys` | src/components/program/Header.jsx:5-16 | the table has exactly the keys "en" and "es" |
| `Translations.Lookup` | src/components/program/Header.jsx:5-21 | The lookup is defined exactly for "en" and "es". "en" gives the English strings and "es" the Spanish strings. |
| `Translations.LookupTotalOnReachable` | src/components/program/Header.jsx:21 | for every language the provider can hold, and after a toggle, the lookup is defined, so the destructuring never fails |

## Left out

- Rendering, styling and routing: all JSX markup. This includes the buttons' `disabled` attributes. They are a second, view-level guard that the handlers do not rely on.
- React's scheduling: batching, stale closures and context propagation to subscribers. Each handler is modelled as one atomic step on the current state.
- JavaScript numbers. `Number(...)` parses the amount input and `toFixed(2)` displays it. The bank amounts are integers (cents), not floating-point numbers. Every counter is an unbounded `int`: the balance, `count`, `activeIndex`, the vote cells and the ghost call counts. In JavaScript they are doubles, which stop counting exactly beyond 2^53. The model agrees with the source only while every value stays within ±2^53. Past that bound, `count + 1` rounds back to `count`, so increment-then-decrement (`CounterDemo.Counter.IncrementThenDecrement`) no longer restores the count. A vote cell bumped more than 2^53 times stops growing, so "sum equals the number of calls" (`Feedback.FeedbackSystem.HandleUpvote`, `Feedback.FeedbackSystem.HandleDownvote`) no longer holds.
- `handleAction("RESET")` passes no payload; the model passes an integer that the reducer ignores. A DEPOSIT or WITHDRAW without a payload (`undefined > 0`) is not modelled: the component never makes such a call.
- Feedback.FeedbackSystem.HandleUpvote and Feedback.FeedbackSystem.HandleDownvote require `index < 5`, since the component calls them only with the indices of its five aspects. An out-of-range index in JavaScript would write `NaN` past the end of the copied array. The copy-and-replace of the arrays is modelled as an in-place update; no other reference to the old array exists.
- SlideShow.Slides: the `slides` prop is modelled as a `const`, fixed for the component's lifetime. In React a parent can re-render `<Slides>` with a different array while `activeIndex` keeps its value. With a shorter deck the index can then be `>= slides.length`, `slides[activeIndex]` is `undefined` and reading `currentSlide.title` throws. The `Valid` bound, and with it the guarantee of `SlideShow.Slides.CurrentSlide`, holds only for a deck that does not change.
- SlideShow.Slides.CurrentSlide requires non-empty `slides`: with no slides the component reads `.title` of `undefined` and throws.
- Translations.Lookup: the table is modelled as a map with exactly the keys "en" and "es". In JavaScript it is a plain object, so keys inherited from `Object.prototype` (`toString`, `constructor`, `valueOf`, `__proto__`, ...) also give a value. Destructuring that value binds three `undefined`s instead of throwing. The model treats such keys as absent: it returns `None` for them. No language the provider can hold is such a key.
- The placeholder `toggleTheme: () => {}` of the default theme context. It is seen only by a consumer outside any provider, and it does nothing. Context lookup is not part of the model.
- Characters are Unicode scalar values, not UTF-16 code units. The white-space set is ECMAScript's, and it is written out code point by code point.
- The network demos are not part of this model: the post creator, the user list and the user profile, along with their loading and error flags. The same goes for the `useCallback` memoization demo, the navbar, the footer and the pages.
