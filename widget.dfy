/** The driver carousel of web/src/component.js: the one mutable index, the
    navigation that changes it, and the pure pieces of the rendering (which
    record is shown, the navigation dots and counter, the stars, today's
    availability line, and the follow-up prompts sent to the host). */
module Widget {
  import opened JsValue
  import opened Catalog

  // ---------------------------------------------------------------------------
  // Navigation arithmetic

  /** JavaScript's `a % n` for n > 0: the remainder takes the sign of a. */
  function JsRem(a: int, n: int): (r: int)
    requires n > 0
    ensures 0 <= a ==> 0 <= r < n
    ensures a < 0 ==> -n < r <= 0
    ensures 0 <= a < n ==> r == a
    ensures n <= a < 2 * n ==> r == a - n
  {
    if a >= 0 then
      RemainderFacts(a, n);
      a % n
    else
      RemainderFacts(-a, n);
      -((-a) % n)
  }

  lemma RemainderFacts(a: nat, n: int)
    requires n > 0
    ensures 0 <= a % n < n
    ensures a < n ==> a % n == a
    ensures n <= a < 2 * n ==> a % n == a - n
  {
  }

  /** The index after `navigateDrivers(direction)` over n > 0 records:
      "next" moves forward, every other direction moves back, both wrapping. */
  function Step(direction: string, i: int, n: nat): (r: int)
    requires n > 0
    ensures 0 <= i < n ==> 0 <= r < n
    ensures 0 <= i < n && direction == "next" ==> r == if i + 1 < n then i + 1 else 0
    ensures 0 <= i < n && direction != "next" ==> r == if i > 0 then i - 1 else n - 1
  {
    if direction == "next" then JsRem(i + 1, n) else JsRem(i - 1 + n, n)
  }

  /** The index after k presses of "next". */
  function NextTimes(i: int, k: nat, n: nat): int
    requires n > 0
  {
    if k == 0 then i else Step("next", NextTimes(i, k - 1, n), n)
  }

  /** From an index in range, k <= n presses of "next" move k places forward,
      wrapping once past the end. */
  lemma {:induction false} NextTimesOffset(i: int, k: nat, n: nat)
    requires 0 <= i < n && k <= n
    ensures NextTimes(i, k, n) == if i + k < n then i + k else i + k - n
  {
    if k > 0 {
      NextTimesOffset(i, k - 1, n);
    }
  }

  /** n presses of "next" over n records come back to the start. */
  lemma NextCycle(i: int, n: nat)
    requires 0 <= i < n
    ensures NextTimes(i, n, n) == i
  {
    NextTimesOffset(i, n, n);
  }

  /** "prev" then "next", and "next" then "prev", leave an index in range
      where it was. */
  lemma StepsUndo(i: int, n: nat)
    requires 0 <= i < n
    ensures Step("next", Step("prev", i, n), n) == i
    ensures Step("prev", Step("next", i, n), n) == i
  {
  }

  /** The remainder truncates: from a negative index "next" can stay
      negative, where a floored remainder would wrap into range. */
  lemma NegativeIndexStaysNegative()
    ensures Step("next", -5, 3) == -1
  {
    assert JsRem(-4, 3) == -(4 % 3);
  }

  // ---------------------------------------------------------------------------
  // Carousel navigation controls

  /** The dots: one per record, the one at `active` marked. */
  function Dots(n: nat, active: int): (r: seq<bool>)
    ensures |r| == n
    ensures forall i :: 0 <= i < n ==> r[i] == (i == active)
  {
    if n == 0 then [] else Dots(n - 1, active) + [n - 1 == active]
  }

  function CountActive(s: seq<bool>): nat
  {
    if s == [] then 0 else CountActive(s[..|s| - 1]) + (if s[|s| - 1] then 1 else 0)
  }

  /** Exactly one dot is active when the index is in range, none otherwise. */
  lemma {:induction false} ActiveDotCount(n: nat, active: int)
    ensures CountActive(Dots(n, active)) == if 0 <= active < n then 1 else 0
  {
    if n > 0 {
      ActiveDotCount(n - 1, active);
      assert Dots(n, active)[..n - 1] == Dots(n - 1, active);
    }
  }

  /** `renderCarouselNav`: the dots and the counter "Driver <position> of
      <total>", or nothing at all for fewer than two records. */
  datatype Nav = Nav(dots: seq<bool>, position: int, total: nat)

  function CarouselNav(n: nat, index: int): (r: Option<Nav>)
    ensures r.None? <==> n <= 1
    ensures r.Some? ==> |r.value.dots| == n && r.value.position == index + 1 && r.value.total == n
  {
    if n <= 1 then None else Some(Nav(Dots(n, index), index + 1, n))
  }

  /** With two or more records and an index in range, exactly the dot at the
      index is active; with an index out of range no dot is. */
  lemma NavMarksCurrent(n: nat, index: int)
    requires n >= 2
    ensures var nav := CarouselNav(n, index).value;
      && CountActive(nav.dots) == (if 0 <= index < n then 1 else 0)
      && (0 <= index < n ==> nav.dots[index])
  {
    ActiveDotCount(n, index);
  }

  // ---------------------------------------------------------------------------
  // Star rating

  datatype Star = FullStar | HalfStar | EmptyStar

  function Repeat(x: Star, k: nat): (r: seq<Star>)
    ensures |r| == k && forall i :: 0 <= i < k ==> r[i] == x
  {
    if k == 0 then [] else Repeat(x, k - 1) + [x]
  }

  function Count(s: seq<Star>, x: Star): nat
  {
    if s == [] then 0 else (if s[0] == x then 1 else 0) + Count(s[1..], x)
  }

  /** The icons for a rating of `tenths` tenths: floor(rating) full stars, a
      half star when the fraction is at least .5, then empty stars up to five
      icons in all. */
  function StarIcons(tenths: nat): seq<Star>
  {
    var full := tenths / 10;
    var half := if tenths % 10 >= 5 then 1 else 0;
    Repeat(FullStar, full) + Repeat(HalfStar, half)
      + Repeat(EmptyStar, if full + half < 5 then 5 - full - half else 0)
  }

  /** `renderStars`, with its three counting loops. */
  method RenderStars(tenths: nat) returns (icons: seq<Star>)
    ensures icons == StarIcons(tenths)
  {
    var fullStars := tenths / 10;
    var hasHalfStar := tenths % 10 >= 5;
    icons := [];
    var i := 0;
    while i < fullStars
      invariant 0 <= i <= fullStars
      invariant icons == Repeat(FullStar, i)
    {
      icons := icons + [FullStar];
      i := i + 1;
    }
    var half := if hasHalfStar then 1 else 0;
    if hasHalfStar {
      icons := icons + [HalfStar];
    }
    assert icons == Repeat(FullStar, fullStars) + Repeat(HalfStar, half);
    var start := fullStars + half;
    i := start;
    while i < 5
      invariant start <= i <= if start < 5 then 5 else start
      invariant icons == Repeat(FullStar, fullStars) + Repeat(HalfStar, half) + Repeat(EmptyStar, i - start)
    {
      icons := icons + [EmptyStar];
      i := i + 1;
    }
  }

  lemma {:induction false} CountConcat(a: seq<Star>, b: seq<Star>, x: Star)
    ensures Count(a + b, x) == Count(a, x) + Count(b, x)
  {
    if a == [] {
      assert a + b == b;
    } else {
      assert (a + b)[1..] == a[1..] + b;
      CountConcat(a[1..], b, x);
    }
  }

  lemma {:induction false} CountRepeat(y: Star, k: nat, x: Star)
    ensures Count(Repeat(y, k), x) == if x == y then k else 0
  {
    if k > 0 {
      CountRepeat(y, k - 1, x);
      CountConcat(Repeat(y, k - 1), [y], x);
      assert Count([y], x) == (if y == x then 1 else 0) + Count([], x);
    }
  }

  /** For a rating between 0 and 5: five icons, floor(rating) of them full,
      one half star exactly when the fraction is at least .5. */
  lemma StarCounts(tenths: nat)
    requires tenths <= 50
    ensures |StarIcons(tenths)| == 5
    ensures Count(StarIcons(tenths), FullStar) == tenths / 10
    ensures Count(StarIcons(tenths), HalfStar) == if tenths % 10 >= 5 then 1 else 0
    ensures Count(StarIcons(tenths), EmptyStar) == 5 - tenths / 10 - (if tenths % 10 >= 5 then 1 else 0)
  {
    var full := tenths / 10;
    var half := if tenths % 10 >= 5 then 1 else 0;
    var empty := 5 - full - half;
    var a, b, c := Repeat(FullStar, full), Repeat(HalfStar, half), Repeat(EmptyStar, empty);
    assert StarIcons(tenths) == a + b + c;
    forall x: Star
      ensures Count(a + b + c, x) == Count(a, x) + Count(b, x) + Count(c, x)
    {
      CountConcat(a + b, c, x);
      CountConcat(a, b, x);
    }
    CountRepeat(FullStar, full, FullStar);
    CountRepeat(FullStar, full, HalfStar);
    CountRepeat(FullStar, full, EmptyStar);
    CountRepeat(HalfStar, half, FullStar);
    CountRepeat(HalfStar, half, HalfStar);
    CountRepeat(HalfStar, half, EmptyStar);
    CountRepeat(EmptyStar, empty, FullStar);
    CountRepeat(EmptyStar, empty, HalfStar);
    CountRepeat(EmptyStar, empty, EmptyStar);
  }

  // ---------------------------------------------------------------------------
  // Today's availability

  /** Day names indexed as `Date.prototype.getDay` numbers them. */
  const Weekdays := ["sunday", "monday", "tuesday", "wednesday", "thursday", "friday", "saturday"]

  /** `driver.availability?.[today] || []`. */
  function TodaySlots(d: Driver, weekday: nat): seq<string>
    requires weekday < 7
  {
    if Weekdays[weekday] in d.availability then d.availability[Weekdays[weekday]] else []
  }

  /** The card's availability line for the given weekday (0 is Sunday). */
  function AvailabilityText(d: Driver, weekday: nat): (r: string)
    requires weekday < 7
    ensures var day := Weekdays[weekday];
      day in d.availability && d.availability[day] != [] ==> r == "Today: " + d.availability[day][0]
    ensures var day := Weekdays[weekday];
      day !in d.availability || d.availability[day] == [] ==> r == "Not available today"
  {
    var slots := TodaySlots(d, weekday);
    if |slots| > 0 then "Today: " + slots[0] else "Not available today"
  }

  // ---------------------------------------------------------------------------
  // Follow-up prompts

  /** `handleDriverAction`: the prompt sent to the host, if any. Nothing is
      sent when the host offers no `sendFollowupMessage` or the action is not
      one of the three buttons. */
  function FollowUp(action: string, driverName: string, canSend: bool): (prompt: Option<string>)
    ensures prompt.Some? <==> canSend && action in {"book", "schedule", "details"}
  {
    if !canSend then None
    else if action == "book" then Some("I want to book " + driverName + " for a ride")
    else if action == "schedule" then Some("Show me " + driverName + "'s availability schedule")
    else if action == "details" then Some("Tell me more about " + driverName)
    else None
  }

  lemma Framed(prefix: string, name: string, suffix: string)
    ensures |prefix + name + suffix| == |prefix| + |name| + |suffix|
    ensures (prefix + name + suffix)[..|prefix|] == prefix
    ensures (prefix + name + suffix)[|prefix|..|prefix| + |name|] == name
  {
  }

  /** A prompt tells the host both the action and the driver: no two
      different (action, name) pairs produce the same prompt. */
  lemma FollowUpInjective(a1: string, n1: string, a2: string, n2: string)
    requires FollowUp(a1, n1, true).Some?
    requires FollowUp(a1, n1, true) == FollowUp(a2, n2, true)
    ensures a1 == a2 && n1 == n2
  {
    var p := FollowUp(a1, n1, true).value;
    var (pre1, suf1) := Parts(a1);
    var (pre2, suf2) := Parts(a2);
    PromptParts(a1, n1);
    PromptParts(a2, n2);
    Framed(pre1, n1, suf1);
    Framed(pre2, n2, suf2);
    assert p[0] == pre1[0] && p[0] == pre2[0];
    assert a1 == a2;
    assert |n1| == |n2|;
  }

  lemma PromptParts(action: string, name: string)
    requires action in {"book", "schedule", "details"}
    ensures FollowUp(action, name, true) == Some(Parts(action).0 + name + Parts(action).1)
  {
    var detailsPrompt := "Tell me more about " + name;
    assert detailsPrompt + "" == detailsPrompt;
  }

  /** The fixed text around the driver's name in the prompt for an action. */
  function Parts(action: string): (string, string)
  {
    if action == "book" then ("I want to book ", " for a ride")
    else if action == "schedule" then ("Show me ", "'s availability schedule")
    else ("Tell me more about ", "")
  }

  // ---------------------------------------------------------------------------
  // Rendering

  /** `getTheme() === 'dark'`, a falsy theme reading as 'light'. */
  predicate IsDark(theme: Val)
  {
    (if Truthy(theme) then theme else Str("light")) == Str("dark")
  }

  /** What `renderDriverCard` shows of a record, its markup aside. */
  datatype Card = Card(driver: Driver, dark: bool, stars: seq<Star>, availability: string)

  /** The content `renderApp` writes into the root element. */
  datatype View =
    | Placeholder                                  // "No drivers available"
    | Page(dark: bool, card: Card, nav: Option<Nav>)

  /** `drivers[index] || drivers[0]`: an index out of range shows the first. */
  function Shown(drivers: seq<Driver>, index: int): Driver
    requires |drivers| > 0
  {
    if 0 <= index < |drivers| then drivers[index] else drivers[0]
  }

  /** The view `renderApp` produces for the injected drivers, the current
      index, the host's theme and the weekday of the host's clock. */
  function Screen(drivers: seq<Driver>, index: int, theme: Val, weekday: nat): (v: View)
    requires weekday < 7
    ensures v.Placeholder? <==> |drivers| == 0
    ensures v.Page? ==> v.card.driver in drivers
    ensures v.Page? && 0 <= index < |drivers| ==> v.card.driver == drivers[index]
    ensures v.Page? && !(0 <= index < |drivers|) ==> v.card.driver == drivers[0]
    ensures v.Page? ==> (v.nav.None? <==> |drivers| <= 1)
    ensures v.Page? ==> v.dark == IsDark(theme) && v.card.dark == v.dark
  {
    if |drivers| == 0 then Placeholder
    else
      var current := Shown(drivers, index);
      var dark := IsDark(theme);
      Page(dark, Card(current, dark, StarIcons(current.rating), AvailabilityText(current, weekday)),
           CarouselNav(|drivers|, index))
  }

  /** After a jump outside the list (or after the list shrank below the
      index), the first record is shown, no dot is active, and the counter
      still reports the stale position. */
  lemma StaleIndexShowsFirst(drivers: seq<Driver>, index: int, theme: Val, weekday: nat)
    requires weekday < 7 && |drivers| >= 2
    requires !(0 <= index < |drivers|)
    ensures var v := Screen(drivers, index, theme, weekday);
      && v.card.driver == drivers[0]
      && CountActive(v.nav.value.dots) == 0
      && v.nav.value.position == index + 1
  {
    ActiveDotCount(|drivers|, index);
  }

  /** The carousel of one widget instance. Its only state is the index of
      the record shown; the records, the theme and the clock are read from
      the host at each render and passed in here. */
  class Carousel {
    var currentIndex: int

    /** The widget starts on the first record. */
    constructor ()
      ensures currentIndex == 0
    {
      currentIndex := 0;
    }

    /** `renderApp`: the card of the current record, through `renderStars`,
        and the navigation controls. */
    method RenderApp(drivers: seq<Driver>, theme: Val, weekday: nat) returns (v: View)
      requires weekday < 7
      ensures v == Screen(drivers, currentIndex, theme, weekday)
    {
      if |drivers| == 0 {
        return Placeholder;
      }
      var current := if 0 <= currentIndex < |drivers| then drivers[currentIndex] else drivers[0];
      var dark := IsDark(theme);
      var stars := RenderStars(current.rating);
      v := Page(dark, Card(current, dark, stars, AvailabilityText(current, weekday)),
                CarouselNav(|drivers|, currentIndex));
    }

    /** `navigateDrivers(direction)`: with no records nothing happens and
        nothing is rendered; otherwise the index moves and the app re-renders. */
    method Navigate(direction: string, drivers: seq<Driver>, theme: Val, weekday: nat) returns (v: Option<View>)
      requires weekday < 7
      modifies this
      ensures |drivers| == 0 ==> currentIndex == old(currentIndex) && v == None
      ensures |drivers| > 0 ==> currentIndex == Step(direction, old(currentIndex), |drivers|)
      ensures |drivers| > 0 ==> v == Some(Screen(drivers, currentIndex, theme, weekday))
    {
      if |drivers| == 0 {
        return None;
      }
      if direction == "next" {
        currentIndex := JsRem(currentIndex + 1, |drivers|);
      } else {
        currentIndex := JsRem(currentIndex - 1 + |drivers|, |drivers|);
      }
      var view := RenderApp(drivers, theme, weekday);
      v := Some(view);
    }

    /** `__goToDriver(index)`: sets the index as given, unchecked, and
        re-renders. */
    method GoTo(index: int, drivers: seq<Driver>, theme: Val, weekday: nat) returns (v: View)
      requires weekday < 7
      modifies this
      ensures currentIndex == index
      ensures v == Screen(drivers, index, theme, weekday)
    {
      currentIndex := index;
      v := RenderApp(drivers, theme, weekday);
    }
  }
}
