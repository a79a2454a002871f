/**
 * The traffic light the repository's tests drive, and the hook-order
 * example: concrete machines on which the general contracts are seen to
 * give the expected answers.
 */
module Scenarios {
  import opened Wrappers
  import opened Definition
  import opened Engine
  import opened Runs

  datatype Light = Light(duration: int, color: string)

  /** An `entry` hook that paints the light. */
  function Paint(color: string): Light -> Light {
    (ctx: Light) => ctx.(color := color)
  }

  /** An unguarded event without reducer that moves to `target`. */
  function Go(target: string): EventConfig<Light, Light> {
    EventConfig(Some(target), None, None)
  }

  function TrafficConfig(): Config<Light, Light> {
    Config(
      Light(1000, "red"),
      ["red", "green", "yellow", "flashing"],
      map[
        "red" := StateConfig(Some(Paint("red")), None, map["NEXT" := Go("green"), "EMERGENCY" := Go("flashing")], None),
        "green" := StateConfig(Some(Paint("green")), None, map["NEXT" := Go("yellow"), "EMERGENCY" := Go("flashing")], None),
        "yellow" := StateConfig(Some(Paint("yellow")), None, map["NEXT" := Go("red"), "EMERGENCY" := Go("flashing")], None),
        "flashing" := StateConfig(None, None, map["RESET" := Go("red")], Some("red"))
      ])
  }

  function TrafficMachine(): Machine<Light, Light> {
    var cfg := TrafficConfig();
    NewMachine(cfg)
  }

  const Next: Input<Light> := Input("NEXT", None)

  /** A fresh traffic light is red with the configured context. */
  lemma TrafficStartsRed()
    ensures Start(TrafficMachine()) == Controller(Some("red"), Light(1000, "red"), None, [])
  {
  }

  /** Three NEXT events go round the cycle back to red, recording where they came from. */
  lemma TrafficCycle()
    ensures var c := Run(TrafficMachine(), Start(TrafficMachine()), [Next, Next, Next]);
            && c.current == Some("red")
            && c.context.color == "red"
            && c.previous == Some("yellow")
            && GetHistory(c) == [Entry("red", Light(1000, "red")), Entry("green", Light(1000, "green")), Entry("yellow", Light(1000, "yellow"))]
  {
    var m := TrafficMachine();
    var c1 := Step(m, Start(m), Next);
    assert c1 == Controller(Some("green"), Light(1000, "green"), Some("red"), [Entry("red", Light(1000, "red"))]);
    var c2 := Step(m, c1, Next);
    assert c2 == Controller(Some("yellow"), Light(1000, "yellow"), Some("green"), c1.hist + [Entry("green", Light(1000, "green"))]);
    var c3 := Step(m, c2, Next);
    assert c3 == Controller(Some("red"), Light(1000, "red"), Some("yellow"), c2.hist + [Entry("yellow", Light(1000, "yellow"))]);
    assert [Next, Next, Next][1..] == [Next, Next];
    assert [Next, Next][1..] == [Next];
    assert Run(m, c2, [Next]) == c3;
  }

  /** Two transitions leave two history entries, naming red and then green. */
  lemma TrafficHistory()
    ensures var m := TrafficMachine();
            var h := GetHistory(Run(m, Start(m), [Next, Next]));
            |h| == 2 && h[0].state == "red" && h[1].state == "green"
  {
    var m := TrafficMachine();
    var c1 := Step(m, Start(m), Next);
    assert c1 == Controller(Some("green"), Light(1000, "green"), Some("red"), [Entry("red", Light(1000, "red"))]);
    var c2 := Step(m, c1, Next);
    assert c2.hist == c1.hist + [Entry("green", Light(1000, "green"))];
    assert [Next, Next][1..] == [Next];
    assert Run(m, c1, [Next]) == c2;
  }

  /** EMERGENCY leads to the flashing state, which matches its parent red but no other state. */
  lemma TrafficEmergency()
    ensures var m := TrafficMachine();
            var c := Step(m, Start(m), Input("EMERGENCY", None));
            && c.current == Some("flashing")
            && Matches(m, c, "red")
            && Matches(m, c, "flashing")
            && !Matches(m, c, "green")
  {
  }

  /** An observer registered with `use` sees the event and the context from before the send. */
  lemma TrafficWatch()
    ensures var m := Use(TrafficMachine(), 7);
            Send(m, Start(m), "NEXT", None).calls == [Call(7, "NEXT", Light(1000, "red"), None)]
  {
  }

  /** After two transitions and a reset the light is red again with the initial context and no history. */
  lemma TrafficReset()
    ensures var m := TrafficMachine();
            var c := Reset(m, Run(m, Start(m), [Next, Next]));
            && c.current == Some("red")
            && c.context == Light(1000, "red")
            && GetHistory(c) == []
  {
  }

  /** Hooks that log their own names into a sequence-valued context. */
  function Log(word: string): seq<string> -> seq<string> {
    (trace: seq<string>) => trace + [word]
  }

  function OrderMachine(): Machine<seq<string>, seq<string>> {
    var cfg := Config(
      [],
      ["A", "B"],
      map[
        "A" := StateConfig(None, Some(Log("exitA")),
                 map["GO" := EventConfig(Some("B"), None, Some((trace: seq<string>, p: Option<seq<string>>) => trace + ["reduce"]))],
                 None),
        "B" := StateConfig(Some(Log("entryB")), None, map[], None)
      ]);
    NewMachine(cfg)
  }

  /** Exit of the old state runs first, then the reducer, then entry of the new state. */
  lemma HookOrder()
    ensures var m := OrderMachine();
            var c := Step(m, Start(m), Input("GO", None));
            c.current == Some("B") && c.context == ["exitA", "reduce", "entryB"]
  {
  }
}
