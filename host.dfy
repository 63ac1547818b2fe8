/** How the two halves meet: the host opens the widget on a tool's result and
    injects its `structuredContent` as `window.openai.toolOutput`, which the
    widget's `getDrivers` reads. */
module Host {
  import opened JsValue
  import opened Catalog
  import opened Server
  import opened Widget

  /** `getDrivers()`: `toolOutput.drivers`, or no records when the result
      carried no structured content. */
  function InjectedDrivers(result: ToolResult): seq<Driver>
  {
    match result.structuredContent
    case Some(ds) => ds
    case None => []
  }

  /** A fresh widget on a search result: the empty-state placeholder when
      nothing matched, else the first match, and at most three dots. */
  lemma SearchWidget(catalog: seq<Driver>, args: Args, theme: Val, weekday: nat)
    requires weekday < 7
    requires Usable(args.city) && Usable(args.vehicleType)
    ensures var m := Matching(catalog, ActiveNeedle(args.city), ActiveNeedle(args.vehicleType));
      var v := Screen(InjectedDrivers(SearchDrivers(catalog, args).value), 0, theme, weekday);
      && (m == [] <==> v.Placeholder?)
      && (m != [] ==> v.card.driver == m[0])
      && (v.Page? && v.nav.Some? ==> 2 <= |v.nav.value.dots| <= 3)
  {
    SearchSelectsFirstMatches(catalog, args);
  }

  /** A widget on a found driver's details shows that driver and no
      navigation controls. */
  lemma DetailsWidget(catalog: seq<Driver>, d: Driver, index: int, theme: Val, weekday: nat)
    requires weekday < 7
    requires UniqueIds(catalog) && d in catalog
    ensures var v := Screen(InjectedDrivers(GetDriverDetails(catalog, Str(d.id))), index, theme, weekday);
      v.Page? && v.card.driver == d && v.nav.None?
  {
    DetailsOfListedDriver(catalog, d);
  }
}
