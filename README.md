# Payment terminal shell: keypad, currency holder, QR amount line and drawer navigation

This project models the core of a small Android payment-terminal app written in Kotlin with Jetpack Compose:

- **The payment keypad** (`PaymentScreen`). An amount in minor units (cents) is built from digit keys:
  - `appendDigits` rejects any text longer than 12 characters.
  - `eraseOne` divides by ten.
  - `formatAmountDisplay` prints `units,cc`.
  - The four key rows (`1 2 3`, `4 5 6`, `7 8 9`, `00 0 X`) dispatch to those two operations.
  - PAY hands the amount on.
  - A local dropdown menu selects one of six currencies.
- **The shared currency holder** (`PaymentViewModel`). It holds the same six-entry catalog and the selected currency, which only `updateCurrency` changes. The settings screen's currency menu feeds it.
- **The QR screen's amount line** (`PaymentQRScreen`): `String.format(Locale.GERMANY, "%d,%02d €", amount / 100, amount % 100)`.
- **The app shell** (`MainAppLayout`):
  - The current route, with a fallback to the keypad.
  - The title text derived from the route.
  - The "payment process" test that hides the top bar and locks the drawer.
  - The drawer's three categories and their expanded flags.
  - The route each drawer item derives from its title, and which item is highlighted.
  - The routes that carry the amount from the keypad to the loading screen and on to the QR screen.

Pure logic is modelled as functions and lemmas. State the source updates in place is modelled as classes with `modifies` clauses:

- The keypad screen's remembered state: `PaymentScreen.PaymentScreenState`.
- The view model: `ViewModel.PaymentViewModel`.
- The drawer's `expandedStates` map: `MainAppLayout.ExpandedStates`.

Each method is specified against a function of the old state, and the lemmas prove what the app promises about those functions.

Kotlin-specific arithmetic and text are written out in `Decimal`:

- `Long.toString()`, `String.toLong()` on digit strings, `%d` and `%02d`.
- `/` and `%` on `Long`, which truncate toward zero (`TruncDiv`, `TruncRem`).

Digits are the ASCII ones.

Facts about the code that the model keeps as written:

- **PAY with a zero amount.** `onPay(amountCents)` at `PaymentScreen.kt:168` has no zero check, so `Pay` hands on 0 like any other amount.
- **The length cap.** The cap is the 12-character test on `amountCents.toString()` at `PaymentScreen.kt:63`, and the "0" of a zero amount counts toward it.
- **Erase does not undo a refused append.** With 12 characters shown, a digit key is refused and leaves the amount unchanged, and "X" then drops a digit the user did type (`RefusedAppendNotUndone`). So append and erase are inverse only for accepted appends (`AppendThenErase`, `PressThenErase`).
- **Where the keypad keeps its currency.** The keypad screen keeps its own currency selection, amount and menu flag. The shell passes a `viewModel` to `PaymentScreen`, but the keypad's signature takes only `onPay`. The model therefore keeps the two selections apart.

## Model

| member | source | states |
|---|---|---|
| Currencies.Catalog | app/src/main/java/com/example/myapplication/ui/PaymentViewModel.kt:10-17 | The catalog has six currencies, and no two share a code. |
| Currencies.CatalogCodes | app/src/main/java/com/example/myapplication/ui/payment/PaymentScreen.kt:47-54 | The codes are EUR, GBP, USD, JPY, BRL and CHF, in that order. The first entry, the default selection, is Euro "€". |
| Decimal.NatToString | app/src/main/java/com/example/myapplication/ui/payment/PaymentScreen.kt:62 | `toString` of a non-negative Long is `NumDigits(n)` ASCII digits. It starts with '0' exactly when n is 0. |
| Decimal.NatToStringRoundTrip | app/src/main/java/com/example/myapplication/ui/payment/PaymentScreen.kt:62-64 | `toLong` of the text `toString` prints is the original value. |
| Decimal.ParseConcat | app/src/main/java/com/example/myapplication/ui/payment/PaymentScreen.kt:64 | Reading `s + t` gives the value of `s` shifted left by the length of `t`, plus the value of `t`. |
| Decimal.TruncDiv | app/src/main/java/com/example/myapplication/ui/payment/PaymentScreen.kt:72-73 | Long `/` by a positive divisor leaves a remainder with the sign of the dividend. The remainder lies in [0, b) for a ≥ 0 and in (-b, 0] for a < 0. |
| Decimal.TruncRem | app/src/main/java/com/example/myapplication/ui/payment/PaymentScreen.kt:73 | Long `%` by a positive divisor takes the sign of the dividend. It lies in [0, b) for a ≥ 0 and in (-b, 0] for a < 0. |
| Decimal.LongToString | app/src/main/java/com/example/myapplication/ui/main/MainAppLayout.kt:160 | The template text of a Long starts with '-' exactly when the value is negative. The rest is ASCII digits, as many as the digits of the absolute value. `LongToStringRoundTrip` reads it back as the value. |
| Decimal.ZeroPad2 | app/src/main/java/com/example/myapplication/ui/payment/PaymentScreen.kt:75 | `%02d`: a value in 0..99 prints as exactly two ASCII digits, and a negative value starts with '-'. `ZeroPad2TwoDigits` reads back 0..99. |
| Decimal.FormatUnitsComma | app/src/main/java/com/example/myapplication/ui/payment/PaymentQRScreen.kt:36 | `"%d,%02d"`. `FormatUnitsCommaShape` gives its shape and `FormatUnitsCommaRoundTrip` its read-back. |
| Decimal.ZeroPad2TwoDigits | app/src/main/java/com/example/myapplication/ui/payment/PaymentScreen.kt:75 | `%02d` prints every value in 0..99 as exactly two digits, which read back as the value. |
| Decimal.LongToStringRoundTrip | app/src/main/java/com/example/myapplication/ui/main/MainAppLayout.kt:160 | The reference reader reads back the text of any Long, negative ones included, as the original value. |
| Decimal.FormatUnitsCommaShape | app/src/main/java/com/example/myapplication/ui/payment/PaymentScreen.kt:75 | `"%d,%02d"` of units ≥ 0 and rem < 100 gives the units' own text, a comma, and two digits worth rem. The total length is the units' digit count plus 3. |
| Decimal.FormatUnitsCommaRoundTrip | app/src/main/java/com/example/myapplication/ui/payment/PaymentScreen.kt:71-76 | Reading back the `units,cc` text of a non-negative amount gives the amount. |
| PaymentScreen.Append | app/src/main/java/com/example/myapplication/ui/payment/PaymentScreen.kt:61-65 | `appendDigits` on the amount's value. What it computes is stated by `AppendValue`, and `AppendKeepsBound` shows it stays below 10^12. |
| PaymentScreen.Erase | app/src/main/java/com/example/myapplication/ui/payment/PaymentScreen.kt:67-69 | `eraseOne`: the result r satisfies 10·r ≤ a < 10·r + 10, so the last decimal digit is dropped. |
| PaymentScreen.Press | app/src/main/java/com/example/myapplication/ui/payment/PaymentScreen.kt:151-155 | The `when (label)` dispatch on the amount's value. Every key keeps the amount below 10^12 (`PressKeepsBound`), and an accepted digit key is undone by erases (`PressThenErase`). |
| PaymentScreen.PressAll | app/src/main/java/com/example/myapplication/ui/payment/PaymentScreen.kt:146-165 | A sequence of key clicks. Digit keys build the number their labels spell (`PressDigitKeys`, `DigitKeysFromZero`). |
| PaymentScreen.FormatAmountDisplay | app/src/main/java/com/example/myapplication/ui/payment/PaymentScreen.kt:71-76 | The amount display. `DisplayRoundTrip` gives its shape and its read-back, and `DisplayInjective` shows different amounts display differently. |
| PaymentScreen.RefusedAppendNotUndone | app/src/main/java/com/example/myapplication/ui/payment/PaymentScreen.kt:61-69 | With 10^11 shown (12 characters), "5" is refused and leaves the amount, and one erase then gives 10^10. The erase does not undo the refusal. |
| PaymentScreen.PaymentScreenState.constructor | app/src/main/java/com/example/myapplication/ui/payment/PaymentScreen.kt:47-58 | A fresh screen has amount 0, the EUR entry selected and the menu closed, and satisfies the invariant. |
| PaymentScreen.PaymentScreenState.AppendDigits | app/src/main/java/com/example/myapplication/ui/payment/PaymentScreen.kt:61-65 | The new amount is `Append(old amount, digits)`. The invariant 0 ≤ amount < 10^12 is kept, so `toLong` cannot overflow. |
| PaymentScreen.PaymentScreenState.EraseOne | app/src/main/java/com/example/myapplication/ui/payment/PaymentScreen.kt:67-69 | The new amount is the old one with its last digit dropped. The invariant is kept. |
| PaymentScreen.PaymentScreenState.PressKey | app/src/main/java/com/example/myapplication/ui/payment/PaymentScreen.kt:146-165 | A key's click moves the amount to `Press(old amount, key)`: "X" erases, "00" appends two zeros, and any other label appends itself. The invariant is kept. |
| PaymentScreen.PaymentScreenState.Pay | app/src/main/java/com/example/myapplication/ui/payment/PaymentScreen.kt:167-168 | PAY hands on exactly the current amount, zero included. The amount is within [0, 10^12). |
| PaymentScreen.PaymentScreenState.OpenCurrencyMenu | app/src/main/java/com/example/myapplication/ui/payment/PaymentScreen.kt:96 | Tapping the symbol opens the menu and changes nothing else. |
| PaymentScreen.PaymentScreenState.DismissCurrencyMenu | app/src/main/java/com/example/myapplication/ui/payment/PaymentScreen.kt:116 | Dismissing closes the menu and changes nothing else. |
| PaymentScreen.PaymentScreenState.SelectCurrency | app/src/main/java/com/example/myapplication/ui/payment/PaymentScreen.kt:119-125 | The i-th menu item selects the i-th catalog entry and closes the menu. The amount is untouched. |
| PaymentScreen.KeyLabelsAreDigits | app/src/main/java/com/example/myapplication/ui/payment/PaymentScreen.kt:162-165 | Every key label other than "X" is one or two decimal digits. |
| PaymentScreen.AppendValue | app/src/main/java/com/example/myapplication/ui/payment/PaymentScreen.kt:61-65 | An accepted append is `a * 10^len + value(digits)`, so a zero amount's leading "0" disappears. A rejected one leaves `a`. |
| PaymentScreen.LeadingZeroCollapses | app/src/main/java/com/example/myapplication/ui/payment/PaymentScreen.kt:61-65 | On amount 0, the key "5" gives 5 and "00" gives 0. |
| PaymentScreen.AppendKeepsBound | app/src/main/java/com/example/myapplication/ui/payment/PaymentScreen.kt:63-64 | The 12-character check keeps every amount below 10^12. |
| PaymentScreen.EraseKeepsBound | app/src/main/java/com/example/myapplication/ui/payment/PaymentScreen.kt:67-69 | Erasing never increases the amount, and a one-digit amount erases to 0. |
| PaymentScreen.EraseTimesZero | app/src/main/java/com/example/myapplication/ui/payment/PaymentScreen.kt:67-69 | k erasures reach 0 exactly when the amount is 0 or k is at least its number of digits. |
| PaymentScreen.EraseTimesShift | app/src/main/java/com/example/myapplication/ui/payment/PaymentScreen.kt:67-69 | k erasures remove k digits shifted in from the right. |
| PaymentScreen.AppendThenErase | app/src/main/java/com/example/myapplication/ui/payment/PaymentScreen.kt:61-69 | An accepted append of n digits is undone by n erasures. |
| PaymentScreen.PressThenErase | app/src/main/java/com/example/myapplication/ui/payment/PaymentScreen.kt:151-155 | An accepted digit key is undone by one "X". An accepted "00" is undone by two. |
| PaymentScreen.PressDigitKey | app/src/main/java/com/example/myapplication/ui/payment/PaymentScreen.kt:151-155 | After a digit prefix, a digit key gives the value of the prefix followed by its label, while the text stays within 12 characters. |
| PaymentScreen.PressDigitKeys | app/src/main/java/com/example/myapplication/ui/payment/PaymentScreen.kt:146-165 | A sequence of digit keys after a digit prefix gives the value of the prefix and the labels written together, while the text stays within 12 characters. |
| PaymentScreen.DigitKeysFromZero | app/src/main/java/com/example/myapplication/ui/payment/PaymentScreen.kt:146-165 | From 0, digit keys whose labels total at most 12 characters give the number they spell. |
| PaymentScreen.KeypadScenario | app/src/main/java/com/example/myapplication/ui/payment/PaymentScreen.kt:151-165 | Keys 5, 0, 0 give 500. Then "X" gives 50, and "X", "X" give 0. |
| PaymentScreen.DisplayExamples | app/src/main/java/com/example/myapplication/ui/payment/PaymentScreen.kt:71-76 | 500 is displayed as "5,00" and 5 as "0,05". |
| PaymentScreen.DisplayRoundTrip | app/src/main/java/com/example/myapplication/ui/payment/PaymentScreen.kt:71-76 | For an amount ≥ 0, the display is `cents / 100` without leading zeros, a comma, and two digits worth `cents % 100`. Reading it back gives the amount. |
| PaymentScreen.DisplayInjective | app/src/main/java/com/example/myapplication/ui/payment/PaymentScreen.kt:71-76 | Different non-negative amounts are displayed differently. |
| PaymentScreen.PressKeepsBound | app/src/main/java/com/example/myapplication/ui/payment/PaymentScreen.kt:151-155 | Every key keeps an amount below 10^12 below 10^12. |
| ViewModel.PaymentViewModel.constructor | app/src/main/java/com/example/myapplication/ui/PaymentViewModel.kt:10-19 | The catalog is the six-entry one, and the initial selection is its first entry, EUR. |
| ViewModel.PaymentViewModel.UpdateCurrency | app/src/main/java/com/example/myapplication/ui/PaymentViewModel.kt:22-24 | The selection becomes exactly the given currency. Passing a catalog entry keeps the holder valid. |
| ViewModel.UpdateCurrencyTwice | app/src/main/java/com/example/myapplication/ui/PaymentViewModel.kt:22-24 | Updating twice with the same currency leaves the same selection as updating once. |
| ViewModel.SettingsCurrencyItemClick | app/src/main/java/com/example/myapplication/ui/settings/SettingsScreen.kt:109-115 | The settings menu's i-th item selects the i-th catalog entry, and the selection stays a catalog member. |
| PaymentQr.FormattedAmount | app/src/main/java/com/example/myapplication/ui/payment/PaymentQRScreen.kt:33-37 | The amount line always ends with " €", whichever currency is selected elsewhere. |
| PaymentQr.FormattedAmountParts | app/src/main/java/com/example/myapplication/ui/payment/PaymentQRScreen.kt:33-37 | For amount ≥ 0: the units without leading zeros, a comma, two digits worth cents in 0..99, and " €". units × 100 + cents equals the amount. |
| PaymentQr.FormattedAmountRoundTrip | app/src/main/java/com/example/myapplication/ui/payment/PaymentQRScreen.kt:33-37 | Reading the amount line back gives the amount. |
| PaymentQr.NegativeAmountLine | app/src/main/java/com/example/myapplication/ui/payment/PaymentQRScreen.kt:34-36 | Kotlin's truncating operators print -150 as "-1,-50 €". |
| PaymentQr.NegativeCentsLine | app/src/main/java/com/example/myapplication/ui/payment/PaymentQRScreen.kt:34-36 | Kotlin's truncating operators print -5 as "0,-5 €". |
| MainAppLayout.CurrentRoute | app/src/main/java/com/example/myapplication/ui/main/MainAppLayout.kt:76 | With no back-stack entry the route is `PaymentRoute`. Otherwise it is the entry's route. |
| MainAppLayout.IsPaymentProcess | app/src/main/java/com/example/myapplication/ui/main/MainAppLayout.kt:91 | The two `startsWith` tests. Of the registered destinations, exactly the loading and QR templates pass (`PaymentProcessDestinations`). |
| MainAppLayout.ShowsTopBar | app/src/main/java/com/example/myapplication/ui/main/MainAppLayout.kt:95 | The top bar is shown exactly off the payment process. On the registered destinations it agrees with `DrawerGesturesEnabled` (`PaymentProcessDestinations`). |
| MainAppLayout.DrawerGesturesEnabled | app/src/main/java/com/example/myapplication/ui/main/MainAppLayout.kt:110 | Drawer gestures are enabled exactly off the payment process. |
| MainAppLayout.TitleText | app/src/main/java/com/example/myapplication/ui/main/MainAppLayout.kt:97 | The title has the route's length, no '_' and no lower-case ASCII letter. For drawer routes it is the title upper-cased (`TitleOfDrawerRoute`). |
| MainAppLayout.RouteOf | app/src/main/java/com/example/myapplication/ui/main/MainAppLayout.kt:125 | A drawer route has the title's length, no space and no upper-case ASCII letter. Different drawer items derive different routes (`DrawerRoutesDistinct`). |
| MainAppLayout.IsSelected | app/src/main/java/com/example/myapplication/ui/main/MainAppLayout.kt:129 | `selected = currentRoute == route`. At most one item is highlighted (`AtMostOneSelected`). |
| MainAppLayout.VisibleItems | app/src/main/java/com/example/myapplication/ui/main/MainAppLayout.kt:114-124 | The listed items. With every category expanded they are all items in order, with none expanded they are empty, and there are never more than all items. |
| MainAppLayout.LoadingRoute | app/src/main/java/com/example/myapplication/ui/main/MainAppLayout.kt:160 | `"payment_loading/$amount"`. The amount reads back from it (`PaymentHandOff`). |
| MainAppLayout.QrRoute | app/src/main/java/com/example/myapplication/ui/main/MainAppLayout.kt:172 | `"payment_qr/$amount"`. The QR screen reads the amount back from it (`PaymentHandOff`). |
| MainAppLayout.LoadingTimeoutRoute | app/src/main/java/com/example/myapplication/ui/main/MainAppLayout.kt:170-172 | The loading timeout's target is built from the amount argument, with 0 for a missing one (`PaymentHandOff`, `MissingAmountIsZero`). |
| MainAppLayout.ArgAmount | app/src/main/java/com/example/myapplication/ui/main/MainAppLayout.kt:184 | `getLong("amount") ?: 0L`: a present argument is its value, and a missing one is 0. |
| MainAppLayout.StartsOnPayment | app/src/main/java/com/example/myapplication/ui/main/MainAppLayout.kt:76-110 | At start the title is "PAYMENT", the top bar is shown and drawer gestures are enabled. |
| MainAppLayout.PaymentProcessDestinations | app/src/main/java/com/example/myapplication/ui/main/MainAppLayout.kt:91-110 | Of the seven registered destinations, exactly the loading and QR routes are the payment process. The top bar is shown and drawer gestures are enabled on exactly the other five. |
| MainAppLayout.TitleOfDrawerRoute | app/src/main/java/com/example/myapplication/ui/main/MainAppLayout.kt:97 | For a drawer title without '_', the title bar of its derived route shows the title upper-cased. |
| MainAppLayout.DrawerRoutesOfScreens | app/src/main/java/com/example/myapplication/ui/main/MainAppLayout.kt:125 | The items "Payment", "Manual Close", "History" and "Settings" derive exactly the routes their screens are registered under. |
| MainAppLayout.DrawerRoutesDistinct | app/src/main/java/com/example/myapplication/ui/main/MainAppLayout.kt:125 | Different drawer items derive different routes. |
| MainAppLayout.AtMostOneSelected | app/src/main/java/com/example/myapplication/ui/main/MainAppLayout.kt:129 | Whatever the current route, at most one drawer item is highlighted. |
| MainAppLayout.PaymentItemSelected | app/src/main/java/com/example/myapplication/ui/main/MainAppLayout.kt:129 | On the keypad route, an item is highlighted exactly when it is "Payment". |
| MainAppLayout.DrawerRoutesWithoutScreen | app/src/main/java/com/example/myapplication/ui/main/MainAppLayout.kt:132 | The other nine drawer items navigate to routes that no registered destination has, so tapping one of them reaches no registered screen. |
| MainAppLayout.Categorize | app/src/main/java/com/example/myapplication/ui/main/MainAppLayout.kt:78-84 | The three categories are "Payment", "History" and "Settings", holding 2, 3 and the remaining items. Concatenated, they give back the item list. |
| MainAppLayout.DrawerCategories | app/src/main/java/com/example/myapplication/ui/main/MainAppLayout.kt:78-84 | With the thirteen drawer items the categories are items 0-1, 2-4 and 5-12, and "Settings" has eight. |
| MainAppLayout.Toggled | app/src/main/java/com/example/myapplication/ui/main/MainAppLayout.kt:115-119 | Tapping a header flips its flag (a missing one reads as collapsed) and leaves every other flag and key as it was. |
| MainAppLayout.ExpandedStates.constructor | app/src/main/java/com/example/myapplication/ui/main/MainAppLayout.kt:86-88 | Initially Payment is expanded and History and Settings are collapsed. |
| MainAppLayout.ExpandedStates.Toggle | app/src/main/java/com/example/myapplication/ui/main/MainAppLayout.kt:115-120 | The map after a tap is the toggled map of the old one. |
| MainAppLayout.InitiallyPaymentExpanded | app/src/main/java/com/example/myapplication/ui/main/MainAppLayout.kt:114-124 | With the initial flags the drawer lists only "Payment" and "Manual Close". |
| MainAppLayout.ToggleTwice | app/src/main/java/com/example/myapplication/ui/main/MainAppLayout.kt:118-120 | Tapping the same header twice restores every flag, and restores the map itself when the category was present. |
| MainAppLayout.PaymentHandOff | app/src/main/java/com/example/myapplication/ui/main/MainAppLayout.kt:159-186 | PAY with amount a targets `payment_loading/a`. Its timeout targets `payment_qr/a`, and the QR screen reads back a. The bar and drawer follow the registered templates these routes resolve to (`PaymentProcessDestinations`). |
| MainAppLayout.MissingAmountIsZero | app/src/main/java/com/example/myapplication/ui/main/MainAppLayout.kt:170-172 | A missing amount argument reads as 0, so the timeout targets `payment_qr/0`. |

## Left out

- **Compose rendering.** Layout, colours, fonts, icons, `AnimatedVisibility` and `KeyButton`'s "✕" glyph are presentation only.
- **Back-stack semantics.** `popUpTo`, `saveState`/`restoreState`, `launchSingleTop` and `popBackStack` are not modelled. The model covers the routes that are navigated to and the current route derived from the top entry, not the stack itself.
- **Coroutines and timers.** Opening and closing the drawer (`scope.launch`) is not modelled. The loading screen's 5-second `delay` (`PaymentLoadingScreen.kt:38-41`) is left out. Only the route its timeout navigates to is modelled (`MainAppLayout.LoadingTimeoutRoute`).
- **The QR screen's success navigation.** The QR screen has no timeout: `PaymentQRScreen.kt:32` takes only `amount` and `onCancel`. The shell still passes it an `onTimeout` that navigates to `PaymentSuccessRoute` (`MainAppLayout.kt:191-195`), which is not modelled. This is the same revision mismatch as the keypad's `viewModel` argument.
- **Unregistered routes.** What the navigation library does when `navigate` receives an unregistered route is not modelled. In the library this fails with an exception, so tapping one of the nine items of `DrawerRoutesWithoutScreen` would stop the app.
- **Navigation-argument parsing.** `NavType.LongType` parsing is library code. `MainAppLayout.RouteAmount` reads the `{amount}` segment back as a reference only, and a segment that is not a number is not modelled.
- **Locale digit shaping.** `PaymentScreen.FormatAmountDisplay` formats with `Locale.getDefault()`, and a locale with non-ASCII digits would print other digit characters. The model uses ASCII digits, which agrees with `Locale.GERMANY` on the QR screen.
- **Non-ASCII case mapping.** `MainAppLayout.Lowercase` and `MainAppLayout.Uppercase` map ASCII letters only. The drawer titles and routes are ASCII.
- **64-bit range.** `Decimal.TruncDiv` and the formatters take unbounded integers, so Long's 64-bit range (for example the negation of `Long.MIN_VALUE`) is not modelled. Keypad amounts stay below 10^12.
- **Assumed route constants.** `PaymentRoute`, `PaymentLoadingRoute`, `PaymentQRRoute` and `HistoryRoute` are declared in files imported at `MainAppLayout.kt:50-60` that are not part of this model. The model assumes their values: "payment", "payment_loading/{amount}", "payment_qr/{amount}" and "history". `StartsOnPayment`, `PaymentProcessDestinations`, `DrawerRoutesOfScreens`, `PaymentItemSelected`, `DrawerRoutesWithoutScreen` and `PaymentHandOff` hold under these assumed values.
- `ViewModel.SettingsCurrencyItemClick` does not model the settings menu's own `currencyExpanded` flag closing on click (SettingsScreen.kt:114). That flag is local to the settings screen.
- **Screens outside the core.** The settings screen's mode dropdown, the login screen, `MainScreen`, `MainActivity` and the history, success and loading screens' rendering are not modelled.
