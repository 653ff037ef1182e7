/** The price fold of `createOrder`, as functions: what one selected option
    adds, what one line costs, and how the lines of an order are scanned and
    summed. `OrderService.CreateOrder` runs the same fold with loops and is
    proved against these functions. */
module Pricing {
  import opened Entities

  /** JavaScript truthiness of an optional number: absent and zero are falsy. */
  predicate Truthy(n: Option<int>) {
    n.Some? && n.value != 0
  }

  function OptionName(o: DishOption): string { o.name }
  function ChoiceName(c: DishChoice): string { c.name }

  /** The dish option a selected option refers to, if any. */
  function MatchOption(options: seq<DishOption>, selected: ItemOption): Option<DishOption> {
    FindBy(options, OptionName, selected.name)
  }

  /** The choice a selected option refers to, if it names one (an absent choice matches no name). */
  function MatchChoice(choices: seq<DishChoice>, selected: ItemOption): Option<DishChoice> {
    if selected.choice.None? then None else FindBy(choices, ChoiceName, selected.choice.value)
  }

  /** What one selected option adds to its line. A direct extra of the
      matched option wins; only a falsy one sends the lookup to the choices,
      which throws when the option has none. */
  function OptionExtra(dishOptions: Option<seq<DishOption>>, selected: ItemOption): (r: Eval<int>)
    ensures r.Throws? <==> dishOptions.None? ||
                           (MatchOption(dishOptions.value, selected).Some? &&
                            !Truthy(MatchOption(dishOptions.value, selected).value.extra) &&
                            MatchOption(dishOptions.value, selected).value.choices.None?)
    ensures r.Value? && r.v != 0 ==>
              dishOptions.Some? && MatchOption(dishOptions.value, selected).Some? &&
              var o := MatchOption(dishOptions.value, selected).value;
              (Truthy(o.extra) && r.v == o.extra.value) ||
              (!Truthy(o.extra) && o.choices.Some? && MatchChoice(o.choices.value, selected).Some? &&
               Truthy(MatchChoice(o.choices.value, selected).value.extra) &&
               r.v == MatchChoice(o.choices.value, selected).value.extra.value)
    ensures dishOptions.Some? && MatchOption(dishOptions.value, selected).Some? ==>
              var o := MatchOption(dishOptions.value, selected).value;
              (Truthy(o.extra) ==> r == Value(o.extra.value)) &&
              (!Truthy(o.extra) && o.choices.Some? && MatchChoice(o.choices.value, selected).Some? &&
               Truthy(MatchChoice(o.choices.value, selected).value.extra) ==>
                 r == Value(MatchChoice(o.choices.value, selected).value.extra.value))
  {
    if dishOptions.None? then Throws
    else
      match MatchOption(dishOptions.value, selected)
      case None => Value(0)
      case Some(option) =>
        if Truthy(option.extra) then Value(option.extra.value)
        else if option.choices.None? then Throws
        else
          match MatchChoice(option.choices.value, selected)
          case None => Value(0)
          case Some(choice) => if Truthy(choice.extra) then Value(choice.extra.value) else Value(0)
  }

  /** The extras of the selected options, added left to right as the inner
      loop does; the first throwing option stops the fold. */
  function OptionsTotal(dishOptions: Option<seq<DishOption>>, selected: seq<ItemOption>): (r: Eval<int>)
    ensures r.Throws? <==> exists k :: 0 <= k < |selected| && OptionExtra(dishOptions, selected[k]).Throws?
    decreases |selected|
  {
    if selected == [] then Value(0)
    else
      var last := |selected| - 1;
      assert forall k :: 0 <= k < last ==> selected[..last][k] == selected[k];
      match OptionsTotal(dishOptions, selected[..last])
      case Throws => Throws
      case Value(before) =>
        match OptionExtra(dishOptions, selected[last])
        case Throws => Throws
        case Value(extra) => Value(before + extra)
  }

  /** The price of one line: the dish's base price plus its extras.
      Iterating a `null` option list throws. */
  function LineTotal(dish: Dish, selected: Option<seq<ItemOption>>): (r: Eval<int>)
    ensures selected.None? ==> r.Throws?
    ensures selected == Some([]) ==> r == Value(dish.price)
  {
    if selected.None? then Throws
    else
      match OptionsTotal(dish.options, selected.value)
      case Throws => Throws
      case Value(extras) => Value(dish.price + extras)
  }

  /** A line's price throws exactly when its option list is `null` or one
      selected option throws; otherwise it is the base price plus the extras. */
  lemma LineTotalThrows(dish: Dish, selected: Option<seq<ItemOption>>)
    ensures LineTotal(dish, selected).Throws? <==>
              selected.None? ||
              exists k :: 0 <= k < |selected.value| && OptionExtra(dish.options, selected.value[k]).Throws?
    ensures LineTotal(dish, selected).Value? ==>
              LineTotal(dish, selected).v == dish.price + OptionsTotal(dish.options, selected.value).v
  {
  }

  /** A line whose dish exists and whose price evaluates. */
  predicate LinePriced(dishes: map<int, Dish>, line: OrderLine) {
    line.dishId in dishes && LineTotal(dishes[line.dishId], line.options).Value?
  }

  predicate AllPriced(dishes: map<int, Dish>, lines: seq<OrderLine>) {
    forall k :: 0 <= k < |lines| ==> LinePriced(dishes, lines[k])
  }

  /** The sum of the line totals, first line first: the reference for the stored order total. */
  function SumOfLines(dishes: map<int, Dish>, lines: seq<OrderLine>): int
    requires AllPriced(dishes, lines)
    decreases |lines|
  {
    if lines == [] then 0
    else
      assert LinePriced(dishes, lines[0]);
      LineTotal(dishes[lines[0].dishId], lines[0].options).v + SumOfLines(dishes, lines[1..])
  }

  /** Where the outer loop of `createOrder` ends: all lines priced with the
      order total, or the index of the first line whose dish is missing or
      whose pricing throws. */
  datatype Scan = Priced(total: int) | MissingDish(at: nat) | Crashed(at: nat)

  /** The outer loop over the requested lines, left to right. */
  function ScanLines(dishes: map<int, Dish>, lines: seq<OrderLine>): (r: Scan)
    ensures r.Priced? <==> AllPriced(dishes, lines)
    ensures r.Priced? ==> r.total == SumOfLines(dishes, lines)
    ensures r.MissingDish? ==> r.at < |lines| && lines[r.at].dishId !in dishes && AllPriced(dishes, lines[..r.at])
    ensures r.Crashed? ==> r.at < |lines| && lines[r.at].dishId in dishes &&
                           LineTotal(dishes[lines[r.at].dishId], lines[r.at].options).Throws? &&
                           AllPriced(dishes, lines[..r.at])
    decreases |lines|
  {
    if lines == [] then Priced(0)
    else
      var last := |lines| - 1;
      var before := lines[..last];
      assert forall k :: 0 <= k < last ==> before[k] == lines[k];
      match ScanLines(dishes, before)
      case MissingDish(at) => MissingDish(at)
      case Crashed(at) => Crashed(at)
      case Priced(sum) =>
        if lines[last].dishId !in dishes then
          assert lines[..last] == before;
          MissingDish(last)
        else
          match LineTotal(dishes[lines[last].dishId], lines[last].options)
          case Throws => assert lines[..last] == before; Crashed(last)
          case Value(line) =>
            SumOfLinesSnoc(dishes, lines);
            Priced(sum + line)
  }

  /** The sum of the lines splits off the last line. */
  lemma {:induction false} SumOfLinesSnoc(dishes: map<int, Dish>, lines: seq<OrderLine>)
    requires |lines| > 0 && AllPriced(dishes, lines)
    ensures AllPriced(dishes, lines[..|lines| - 1])
    ensures SumOfLines(dishes, lines) ==
            SumOfLines(dishes, lines[..|lines| - 1]) +
            LineTotal(dishes[lines[|lines| - 1].dishId], lines[|lines| - 1].options).v
  {
    var last := |lines| - 1;
    assert forall k :: 0 <= k < last ==> lines[..last][k] == lines[k];
    if |lines| > 1 {
      assert forall k :: 0 <= k < |lines[1..]| ==> lines[1..][k] == lines[k + 1];
      SumOfLinesSnoc(dishes, lines[1..]);
      assert lines[1..][..|lines[1..]| - 1] == lines[..last][1..];
    }
  }

  /** Once a prefix of the lines stops the scan, the whole scan stops there. */
  lemma {:induction false} ScanStopsAtFailure(dishes: map<int, Dish>, lines: seq<OrderLine>, n: nat)
    requires n <= |lines| && !ScanLines(dishes, lines[..n]).Priced?
    ensures ScanLines(dishes, lines) == ScanLines(dishes, lines[..n])
    decreases |lines| - n
  {
    if n < |lines| {
      assert lines[..n + 1][..n] == lines[..n];
      assert ScanLines(dishes, lines[..n + 1]) == ScanLines(dishes, lines[..n]);
      ScanStopsAtFailure(dishes, lines, n + 1);
    } else {
      assert lines[..n] == lines;
    }
  }

  /** A selected option naming no option of the dish adds nothing and does not throw. */
  lemma UnknownOptionAddsNothing(options: seq<DishOption>, selected: ItemOption)
    requires forall k :: 0 <= k < |options| ==> options[k].name != selected.name
    ensures OptionExtra(Some(options), selected) == Value(0)
  {
  }

  /** A truthy extra on the matched option is added as it is, whatever
      choice was selected: the choices are not consulted. */
  lemma DirectExtraIgnoresChoice(options: seq<DishOption>, selected: ItemOption, choice: Option<string>)
    requires MatchOption(options, selected).Some? && Truthy(MatchOption(options, selected).value.extra)
    ensures OptionExtra(Some(options), selected) == Value(MatchOption(options, selected).value.extra.value)
    ensures OptionExtra(Some(options), selected.(choice := choice)) == OptionExtra(Some(options), selected)
  {
    assert MatchOption(options, selected.(choice := choice)) == MatchOption(options, selected);
  }

  /** With a falsy extra on the matched option, a selected choice that the
      option does not list adds nothing. */
  lemma UnknownChoiceAddsNothing(options: seq<DishOption>, selected: ItemOption)
    requires MatchOption(options, selected).Some?
    requires !Truthy(MatchOption(options, selected).value.extra)
    requires MatchOption(options, selected).value.choices.Some?
    requires selected.choice.Some?
    requires var choices := MatchOption(options, selected).value.choices.value;
             forall k :: 0 <= k < |choices| ==> choices[k].name != selected.choice.value
    ensures OptionExtra(Some(options), selected) == Value(0)
  {
  }

  /** With a falsy extra on the matched option, the matched choice's truthy
      extra is what the option adds. */
  lemma MatchedChoiceExtraAdded(options: seq<DishOption>, selected: ItemOption, o: DishOption, c: DishChoice)
    requires MatchOption(options, selected) == Some(o) && !Truthy(o.extra) && o.choices.Some?
    requires MatchChoice(o.choices.value, selected) == Some(c) && Truthy(c.extra)
    ensures OptionExtra(Some(options), selected) == Value(c.extra.value)
  {
  }

  /** With a falsy extra on the matched option, a matched choice with a
      falsy extra adds nothing and does not throw. */
  lemma MatchedChoiceFalsyExtraAddsNothing(options: seq<DishOption>, selected: ItemOption, o: DishOption, c: DishChoice)
    requires MatchOption(options, selected) == Some(o) && !Truthy(o.extra) && o.choices.Some?
    requires MatchChoice(o.choices.value, selected) == Some(c) && !Truthy(c.extra)
    ensures OptionExtra(Some(options), selected) == Value(0)
  {
  }

  /** Two lines of a 10-unit dish, one with a size choice worth 2 and one
      with an option the dish does not have: the order comes to 22. */
  lemma TwoLineScenario()
    ensures var dish := Dish(1, "Pizza", 10, Some([DishOption("Size", Some([DishChoice("L", Some(2)), DishChoice("S", None)]), None)]));
            var lines := [OrderLine(1, Some([ItemOption("Size", Some("L"))])),
                          OrderLine(1, Some([ItemOption("Spice", None)]))];
            ScanLines(map[1 := dish], lines) == Priced(22)
  {
    var dish := Dish(1, "Pizza", 10, Some([DishOption("Size", Some([DishChoice("L", Some(2)), DishChoice("S", None)]), None)]));
    var dishes := map[1 := dish];
    var first := OrderLine(1, Some([ItemOption("Size", Some("L"))]));
    var second := OrderLine(1, Some([ItemOption("Spice", None)]));
    assert LineTotal(dish, first.options) == Value(12);
    assert LineTotal(dish, second.options) == Value(10);
    assert [first, second][..1] == [first];
    assert ScanLines(dishes, [first]) == Priced(12);
  }
}
