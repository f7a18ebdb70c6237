/**
  The main shell around the payment screens: the route strings of the inner
  navigation graph, the title bar text, the "payment in progress" test that hides
  the bar and locks the drawer, the drawer's three categories and their
  expanded/collapsed flags, and the routes of the pay -> loading -> QR hand-off.
*/
module MainAppLayout {
  import opened Wrappers
  import opened Decimal

  // ---------------------------------------------------------------------------
  // Routes of the inner navigation graph

  const PaymentRoute: string := "payment"
  const PaymentLoadingRoute: string := "payment_loading/{amount}"
  const PaymentQRRoute: string := "payment_qr/{amount}"
  const PaymentSuccessRoute: string := "payment_success"
  const ManualCloseRoute: string := "manual_close"
  const HistoryRoute: string := "history"
  const SettingsRoute: string := "settings"

  /** The destinations registered in the inner `NavHost`, in declaration order. */
  const Destinations: seq<string> := [
    PaymentRoute, PaymentLoadingRoute, PaymentQRRoute, PaymentSuccessRoute,
    ManualCloseRoute, HistoryRoute, SettingsRoute ]

  const LoadingPrefix: string := "payment_loading/"
  const QrPrefix: string := "payment_qr/"

  // ---------------------------------------------------------------------------
  // Character and string helpers (ASCII case mapping)

  function Lower(c: char): char {
    if 'A' <= c <= 'Z' then (c as int + 32) as char else c
  }

  function Upper(c: char): char {
    if 'a' <= c <= 'z' then (c as int - 32) as char else c
  }

  /** `String.lowercase()`, character by character. */
  function Lowercase(s: string): string {
    seq(|s|, i requires 0 <= i < |s| => Lower(s[i]))
  }

  /** `String.uppercase()`, character by character. */
  function Uppercase(s: string): string {
    seq(|s|, i requires 0 <= i < |s| => Upper(s[i]))
  }

  /** `String.replace(from, to)` for one-character strings: every `from` becomes `to`. */
  function Replace(s: string, from: char, to: char): string {
    seq(|s|, i requires 0 <= i < |s| => if s[i] == from then to else s[i])
  }

  predicate StartsWith(s: string, prefix: string) {
    |prefix| <= |s| && s[..|prefix|] == prefix
  }

  // ---------------------------------------------------------------------------
  // The shell

  /** The current route: the destination of the top back-stack entry, or `PaymentRoute` when there is none. */
  function CurrentRoute(entryRoute: Option<string>): (route: string)
    ensures entryRoute.None? ==> route == PaymentRoute
    ensures entryRoute.Some? ==> route == entryRoute.value
  {
    entryRoute.GetOr(PaymentRoute)
  }

  /** The loading and QR screens are the payment process. */
  predicate IsPaymentProcess(route: string) {
    StartsWith(route, "payment_loading") || StartsWith(route, "payment_qr")
  }

  /** The top bar is shown, and the drawer can be swiped open, except during the payment process. */
  predicate ShowsTopBar(route: string) {
    !IsPaymentProcess(route)
  }

  predicate DrawerGesturesEnabled(route: string) {
    !IsPaymentProcess(route)
  }

  /** The title bar text: the route with every `_` replaced by a space, upper-cased. */
  function TitleText(route: string): (t: string)
    ensures |t| == |route|
    ensures forall i :: 0 <= i < |t| ==> t[i] != '_' && !('a' <= t[i] <= 'z')
  {
    Uppercase(Replace(route, '_', ' '))
  }

  // ---------------------------------------------------------------------------
  // The drawer

  /** A drawer entry; its icon is not modelled. */
  datatype DrawerItem = DrawerItem(title: string)

  const DrawerItems: seq<DrawerItem> := [
    DrawerItem("Payment"), DrawerItem("Manual Close"),
    DrawerItem("History"), DrawerItem("Search Transaction"), DrawerItem("Pending Transactions"),
    DrawerItem("Settings"), DrawerItem("Security"), DrawerItem("Manage Card Readers"),
    DrawerItem("Manage TPA"), DrawerItem("Change Mobile"), DrawerItem("Change Password"),
    DrawerItem("Support"), DrawerItem("Terms and Conditions") ]

  /** The route a drawer item navigates to: its title lower-cased with spaces replaced by `_`. */
  function RouteOf(title: string): (r: string)
    ensures |r| == |title|
    ensures forall i :: 0 <= i < |r| ==> r[i] != ' ' && !('A' <= r[i] <= 'Z')
  {
    Replace(Lowercase(title), ' ', '_')
  }

  /** A drawer item is highlighted when the current route is its route. */
  predicate IsSelected(currentRoute: string, item: DrawerItem) {
    currentRoute == RouteOf(item.title)
  }

  /** A category of the drawer: its header and its items. */
  datatype Category<T> = Category(name: string, items: seq<T>)

  /** The items of all categories, in order. */
  function Flatten<T>(cats: seq<Category<T>>): seq<T> {
    if cats == [] then [] else cats[0].items + Flatten(cats[1..])
  }

  /**
    `categorizedItems`: "Payment" gets items 0..1, "History" items 2..4 and "Settings"
    the rest; `slice` needs at least five items. Every item lands in exactly one
    category, in its original order.
  */
  function Categorize<T>(items: seq<T>): (cats: seq<Category<T>>)
    requires |items| >= 5
    ensures |cats| == 3
    ensures cats[0].name == "Payment" && cats[1].name == "History" && cats[2].name == "Settings"
    ensures |cats[0].items| == 2 && |cats[1].items| == 3
    ensures Flatten(cats) == items
  {
    var cats := [Category("Payment", items[0..2]), Category("History", items[2..5]), Category("Settings", items[5..])];
    assert Flatten(cats) == items by {
      assert cats[1..][1..][1..] == [];
      assert Flatten(cats[1..][1..]) == items[5..];
      assert Flatten(cats[1..]) == items[2..5] + items[5..];
    }
    cats
  }

  /** The initial expanded flags: Payment open, History and Settings closed. */
  const InitialExpanded: map<string, bool> := map["Payment" := true, "History" := false, "Settings" := false]

  /** `expandedStates[name] == true`: a missing entry reads as collapsed. */
  predicate IsExpanded(states: map<string, bool>, name: string) {
    name in states && states[name]
  }

  /** The flags after tapping the header `name`: that flag flips, the others stay. */
  function Toggled(states: map<string, bool>, name: string): (r: map<string, bool>)
    ensures r.Keys == states.Keys + {name}
    ensures IsExpanded(r, name) == !IsExpanded(states, name)
    ensures forall other :: other != name ==> (other in r <==> other in states) && IsExpanded(r, other) == IsExpanded(states, other)
  {
    states[name := !IsExpanded(states, name)]
  }

  /** The items the drawer lists: those of the expanded categories, in order. */
  function VisibleItems<T>(cats: seq<Category<T>>, states: map<string, bool>): (items: seq<T>)
    ensures (forall i :: 0 <= i < |cats| ==> IsExpanded(states, cats[i].name)) ==> items == Flatten(cats)
    ensures (forall i :: 0 <= i < |cats| ==> !IsExpanded(states, cats[i].name)) ==> items == []
    ensures |items| <= |Flatten(cats)|
  {
    if cats == [] then []
    else (if IsExpanded(states, cats[0].name) then cats[0].items else []) + VisibleItems(cats[1..], states)
  }

  /** The `expandedStates` map the drawer keeps; tapping a category header toggles its flag in place. */
  class ExpandedStates {
    var states: map<string, bool>

    constructor ()
      ensures states == InitialExpanded
    {
      states := InitialExpanded;
    }

    method Toggle(name: string)
      modifies this
      ensures states == Toggled(old(states), name)
    {
      var isExpanded := name in states && states[name];
      states := states[name := !isExpanded];
    }
  }

  // ---------------------------------------------------------------------------
  // The payment hand-off

  /** The route PAY navigates to: `"payment_loading/$amount"`. */
  function LoadingRoute(amount: int): string {
    LoadingPrefix + LongToString(amount)
  }

  /** The route the QR screen is reached by: `"payment_qr/$amount"`. */
  function QrRoute(amount: int): string {
    QrPrefix + LongToString(amount)
  }

  /** The amount argument as the loading and QR screens read it: `?: 0L` when it is missing. */
  function ArgAmount(arg: Option<int>): (amount: int)
    ensures arg.Some? ==> amount == arg.value
    ensures arg.None? ==> amount == 0
  {
    arg.GetOr(0)
  }

  /** The route the loading screen's timeout navigates to, from its amount argument. */
  function LoadingTimeoutRoute(arg: Option<int>): string {
    QrRoute(ArgAmount(arg))
  }

  /** Reference reading of the `{amount}` segment of a route built from `prefix`. */
  function RouteAmount(prefix: string, route: string): Option<int> {
    if StartsWith(route, prefix) then ParseLong(route[|prefix|..]) else None
  }

  // ---------------------------------------------------------------------------
  // Lemmas: routes, title and top bar

  /** With no back-stack entry the shell is on the payment keypad: "PAYMENT" in the title bar, drawer usable. */
  lemma StartsOnPayment()
    ensures CurrentRoute(None) == PaymentRoute
    ensures TitleText(CurrentRoute(None)) == "PAYMENT"
    ensures ShowsTopBar(CurrentRoute(None)) && DrawerGesturesEnabled(CurrentRoute(None))
  {
  }

  /**
    Of the registered destinations exactly the loading and QR templates are the
    payment process, so only there are the top bar hidden and the drawer locked.
  */
  lemma PaymentProcessDestinations()
    ensures forall d :: d in Destinations ==>
      (IsPaymentProcess(d) <==> d == PaymentLoadingRoute || d == PaymentQRRoute)
    ensures forall d :: d in Destinations ==>
      (ShowsTopBar(d) <==> DrawerGesturesEnabled(d)) && (ShowsTopBar(d) <==> !IsPaymentProcess(d))
  {
    assert PaymentLoadingRoute[..15] == "payment_loading";
    assert PaymentQRRoute[..10] == "payment_qr";
    assert PaymentSuccessRoute[..15][8] != "payment_loading"[8];
    assert PaymentSuccessRoute[..10][8] != "payment_qr"[8];
    assert ManualCloseRoute[..10][0] != "payment_qr"[0];
  }

  /** Upper-casing a lower-cased character gives the upper-cased original. */
  lemma UpperLower(c: char)
    ensures Upper(Lower(c)) == Upper(c)
  {
  }

  /** For a title without `_`, the title bar of its drawer route shows the title upper-cased. */
  lemma TitleOfDrawerRoute(title: string)
    requires forall i :: 0 <= i < |title| ==> title[i] != '_'
    ensures TitleText(RouteOf(title)) == Uppercase(title)
  {
    var r := TitleText(RouteOf(title));
    forall i | 0 <= i < |title|
      ensures r[i] == Upper(title[i])
    {
      UpperLower(title[i]);
    }
  }

  // ---------------------------------------------------------------------------
  // Lemmas: the drawer

  /** The four drawer items that have a screen derive exactly the routes those screens are registered under. */
  lemma DrawerRoutesOfScreens()
    ensures RouteOf(DrawerItems[0].title) == PaymentRoute
    ensures RouteOf(DrawerItems[1].title) == ManualCloseRoute
    ensures RouteOf(DrawerItems[2].title) == HistoryRoute
    ensures RouteOf(DrawerItems[5].title) == SettingsRoute
  {
  }

  /** Length, first and third character of a route: enough to tell the drawer's routes apart. */
  function Signature(route: string): (int, char, char)
    requires |route| >= 3
  {
    (|route|, route[0], route[2])
  }

  /** The signatures of the thirteen derived drawer routes, in drawer order. */
  const DrawerSignatures: seq<(int, char, char)> := [
    (7, 'p', 'y'), (12, 'm', 'n'),
    (7, 'h', 's'), (18, 's', 'a'), (20, 'p', 'n'),
    (8, 's', 't'), (8, 's', 'c'), (19, 'm', 'n'), (10, 'm', 'n'),
    (13, 'c', 'a'), (15, 'c', 'a'), (7, 's', 'p'), (20, 't', 'r') ]

  lemma DrawerSignatureAt(k: nat)
    requires k < |DrawerItems|
    ensures |RouteOf(DrawerItems[k].title)| >= 3
    ensures Signature(RouteOf(DrawerItems[k].title)) == DrawerSignatures[k]
  {
    var t := DrawerItems[k].title;
    assert Signature(RouteOf(t)) == (|t|, Lower(t[0]), Lower(t[2]));
  }

  lemma DrawerSignaturesDistinct()
    ensures forall i, j :: 0 <= i < j < |DrawerSignatures| ==> DrawerSignatures[i] != DrawerSignatures[j]
  {
  }

  /** Different drawer items derive different routes. */
  lemma DrawerRoutesDistinct(i: nat, j: nat)
    requires i < j < |DrawerItems|
    ensures RouteOf(DrawerItems[i].title) != RouteOf(DrawerItems[j].title)
  {
    DrawerSignatureAt(i);
    DrawerSignatureAt(j);
    DrawerSignaturesDistinct();
  }

  /** Whatever the current route, at most one drawer item is highlighted. */
  lemma AtMostOneSelected(route: string, i: nat, j: nat)
    requires i < |DrawerItems| && j < |DrawerItems|
    requires IsSelected(route, DrawerItems[i]) && IsSelected(route, DrawerItems[j])
    ensures i == j
  {
    if i < j {
      DrawerRoutesDistinct(i, j);
    } else if j < i {
      DrawerRoutesDistinct(j, i);
    }
  }

  /** On the payment keypad only the "Payment" item is highlighted. */
  lemma PaymentItemSelected(k: nat)
    requires k < |DrawerItems|
    ensures IsSelected(PaymentRoute, DrawerItems[k]) <==> k == 0
  {
    DrawerRoutesOfScreens();
    if k != 0 && IsSelected(PaymentRoute, DrawerItems[k]) {
      AtMostOneSelected(PaymentRoute, 0, k);
    }
  }

  /** The other nine drawer items derive routes that no destination of the graph is registered under. */
  lemma DrawerRoutesWithoutScreen(k: nat)
    requires k < |DrawerItems| && k !in {0, 1, 2, 5}
    ensures RouteOf(DrawerItems[k].title) !in Destinations
  {
    var r := RouteOf(DrawerItems[k].title);
    DrawerSignatureAt(k);
    forall i | 0 <= i < |Destinations|
      ensures Destinations[i] != r
    {
      DestinationSignatureAt(i);
      assert DestinationSignatures[i] != DrawerSignatures[k];
    }
  }

  /** The signatures of the registered destinations, in declaration order. */
  const DestinationSignatures: seq<(int, char, char)> := [
    (7, 'p', 'y'), (24, 'p', 'y'), (19, 'p', 'y'), (15, 'p', 'y'), (12, 'm', 'n'), (7, 'h', 's'), (8, 's', 't') ]

  lemma DestinationSignatureAt(i: nat)
    requires i < |Destinations|
    ensures |Destinations[i]| >= 3 && Signature(Destinations[i]) == DestinationSignatures[i]
  {
  }

  /** The drawer's categories: two payment items, three history items and the eight settings items. */
  lemma DrawerCategories()
    ensures var cats := Categorize(DrawerItems);
      && cats[0].items == DrawerItems[..2]
      && cats[1].items == DrawerItems[2..5]
      && cats[2].items == DrawerItems[5..]
      && |cats[2].items| == 8
      && Flatten(cats) == DrawerItems
  {
  }

  // ---------------------------------------------------------------------------
  // Lemmas: the expanded flags

  /** Initially only the Payment category is open, so the drawer lists "Payment" and "Manual Close". */
  lemma InitiallyPaymentExpanded()
    ensures IsExpanded(InitialExpanded, "Payment")
    ensures !IsExpanded(InitialExpanded, "History") && !IsExpanded(InitialExpanded, "Settings")
    ensures VisibleItems(Categorize(DrawerItems), InitialExpanded) == DrawerItems[..2]
  {
    var cats := Categorize(DrawerItems);
    assert cats[1..][1..][1..] == [];
    assert VisibleItems(cats[1..][1..], InitialExpanded) == [];
    assert VisibleItems(cats[1..], InitialExpanded) == [];
  }

  /** Tapping the same header twice restores every flag, and the map itself when the category was present. */
  lemma ToggleTwice(states: map<string, bool>, name: string)
    ensures forall other :: IsExpanded(Toggled(Toggled(states, name), name), other) == IsExpanded(states, other)
    ensures name in states ==> Toggled(Toggled(states, name), name) == states
  {
    var twice := Toggled(Toggled(states, name), name);
    if name in states {
      assert twice.Keys == states.Keys;
      assert forall k :: k in states ==> twice[k] == states[k];
    }
  }

  // ---------------------------------------------------------------------------
  // Lemmas: the payment hand-off

  /**
    PAY with amount `a` targets `payment_loading/a`; the loading screen's timeout
    then targets `payment_qr/a` with the same `a`, and the QR screen reads `a` back.
    While those screens are shown the current route is their registered template,
    which `PaymentProcessDestinations` classifies as the payment process.
  */
  lemma PaymentHandOff(a: int)
    ensures RouteAmount(LoadingPrefix, LoadingRoute(a)) == Some(a)
    ensures LoadingTimeoutRoute(RouteAmount(LoadingPrefix, LoadingRoute(a))) == QrRoute(a)
    ensures ArgAmount(RouteAmount(QrPrefix, QrRoute(a))) == a
  {
    RouteWithArgument(LoadingPrefix, LongToString(a));
    RouteWithArgument(QrPrefix, LongToString(a));
    LongToStringRoundTrip(a);
  }

  /** A route built as `prefix + arg` starts with the prefix and ends with `arg`. */
  lemma RouteWithArgument(prefix: string, arg: string)
    ensures StartsWith(prefix + arg, prefix)
    ensures (prefix + arg)[|prefix|..] == arg
  {
    var r := prefix + arg;
    assert r[..|prefix|] == prefix;
  }

  /** A missing amount argument reads as zero, so the timeout then targets `payment_qr/0`. */
  lemma MissingAmountIsZero()
    ensures ArgAmount(None) == 0
    ensures LoadingTimeoutRoute(None) == "payment_qr/0"
  {
  }
}
