/** The strategy snippets of strategy/srategyMode.js: the year-end bonus
    computed three ways, and a form validator that turns rule strings such
    as "minLength:10" into queued checks. */
module Strategy {
  import opened JsValues
  import opened Strings

  // ---------------------------------------------------------------------
  // Bonus by performance level.

  /** The performance strategies; each turns a salary into a bonus. */
  datatype Performance = PerformanceS | PerformanceA | PerformanceB
  {
    function Calculate(salary: int): int
    {
      match this
      case PerformanceS => salary * 4
      case PerformanceA => salary * 3
      case PerformanceB => salary * 2
    }
  }

  /** The strategy table of the JavaScript version: level name to strategy. */
  const Strategies: map<string, Performance> :=
    map["S" := PerformanceS, "A" := PerformanceA, "B" := PerformanceB]

  /** `calculateBonus(performanceLevel, salary)` of the if-chain version:
      undefined (None) for any level other than 'S', 'A' and 'B'.  It agrees
      with the table wherever the table has an entry. */
  function CalculateBonus(performanceLevel: string, salary: int): (r: Option<int>)
    ensures r.Some? <==> performanceLevel in Strategies
    ensures r.Some? ==> r.value == Strategies[performanceLevel].Calculate(salary)
  {
    if performanceLevel == "S" then Some(PerformanceS.Calculate(salary))
    else if performanceLevel == "A" then Some(PerformanceA.Calculate(salary))
    else if performanceLevel == "B" then Some(PerformanceB.Calculate(salary))
    else None
  }

  /** `calculateBonus(level, salary)` of the table version: a level with no
      entry has no function to call, so the call throws. */
  function TableBonus(level: string, salary: int): (r: Completion<int>)
    ensures r.Normal? <==> CalculateBonus(level, salary).Some?
    ensures r.Normal? ==> Some(r.value) == CalculateBonus(level, salary)
  {
    if level in Strategies then Normal(Strategies[level].Calculate(salary))
    else Throw("strategies[level] is not a function")
  }

  /** S, A and B multiply the salary by 4, 3 and 2; the demos give
      ('A', 10000) -> 30000 and ('S', 20000) -> 80000. */
  lemma BonusMultipliers(salary: int)
    ensures CalculateBonus("S", salary) == Some(4 * salary)
    ensures CalculateBonus("A", salary) == Some(3 * salary)
    ensures CalculateBonus("B", salary) == Some(2 * salary)
    ensures CalculateBonus("A", 10000) == Some(30000)
    ensures TableBonus("S", 20000) == Normal(80000)
  {
  }

  /** The context object of the class-based version: a salary (`null` until
      set) and a strategy object (`null` until set). */
  class Bonus {
    var salary: Option<int>
    var strategy: Option<Performance>

    constructor ()
      ensures salary == None && strategy == None
    {
      salary, strategy := None, None;
    }

    method SetSalary(salary: int)
      modifies this`salary
      ensures this.salary == Some(salary)
    {
      this.salary := Some(salary);
    }

    method SetStrategy(strategy: Performance)
      modifies this`strategy
      ensures this.strategy == Some(strategy)
    {
      this.strategy := Some(strategy);
    }

    /** `getBonus()`: the current strategy applied to the most recently set
        salary.  Without a strategy the call throws; a salary still `null`
        counts as 0 in the multiplication. */
    method GetBonus() returns (r: Completion<int>)
      ensures strategy.None? ==> r.Throw?
      ensures strategy.Some? && salary.Some? ==> r == Normal(strategy.value.Calculate(salary.value))
      ensures strategy.Some? && salary.None? ==> r == Normal(0)
    {
      if strategy.None? {
        return Throw("Cannot read properties of null (reading 'calculate')");
      }
      var amount := if salary.Some? then salary.value else 0;
      r := Normal(strategy.value.Calculate(amount));
    }
  }

  /** The class-based demo: salary 10000 with strategy S gives 40000. */
  method TraditionalDemo() returns (r: Completion<int>)
    ensures r == Normal(40000)
  {
    var bonus := new Bonus();
    bonus.SetSalary(10000);
    bonus.SetStrategy(PerformanceS);
    r := bonus.GetBonus();
  }

  // ---------------------------------------------------------------------
  // Form validation.

  /** `Number(s)` on a rule argument, for decimal digit strings; None stands
      for NaN, against which every comparison is false. */
  function NumberOf(s: string): Option<nat>
  {
    if s != "" && IsDigits(s) then Some(ParseNat(s)) else None
  }

  /** The `isMobile` pattern `^1[3|5|8][0-9]{9}$`: eleven characters, a
      '1', then one of '3', '|', '5', '8' (the bars inside the brackets are
      literal members of the class), then nine decimal digits. */
  predicate IsMobile(value: string)
  {
    && |value| == 11
    && value[0] == '1'
    && value[1] in {'3', '|', '5', '8'}
    && forall i :: 2 <= i < 11 ==> IsDigit(value[i])
  }

  /** The i-th argument of an `apply` argument list, undefined past its end. */
  function Arg(args: seq<string>, i: nat): JsValue
  {
    if i < |args| then Str(args[i]) else Undefined
  }

  /** The names the validation strategy table defines itself. */
  const StrategyNames: set<string> := {"isNonEmpty", "minLength", "isMobile"}

  /** The properties every object literal inherits from `Object.prototype`.
      Looking one of them up in a strategy table finds the inherited value
      instead of nothing; the model does not give those lookups a meaning
      (see ApplyStrategy). */
  const ObjectPrototypeNames: set<string> := {
    "constructor", "hasOwnProperty", "isPrototypeOf", "propertyIsEnumerable",
    "toLocaleString", "toString", "valueOf", "__proto__",
    "__defineGetter__", "__defineSetter__", "__lookupGetter__", "__lookupSetter__"}

  /** `strategies[name].apply(dom, args)`: the strategy takes its parameters
      by position from `args`; a name the table does not define is not a
      function, so the call throws.  Names inherited from
      `Object.prototype` are read here as undefined too. */
  function ApplyStrategy(name: string, args: seq<string>): (r: Completion<JsValue>)
    requires |args| >= 1
    ensures r.Throw? <==> name !in StrategyNames
    ensures r.Normal? ==> r.value == Undefined || r.value == Arg(args, 1) || r.value == Arg(args, 2)
  {
    if name == "isNonEmpty" then
      Normal(if args[0] == "" then Arg(args, 1) else Undefined)
    else if name == "minLength" then
      var length := if 1 < |args| then NumberOf(args[1]) else None;
      Normal(if length.Some? && Utf16Length(args[0]) < length.value then Arg(args, 2) else Undefined)
    else if name == "isMobile" then
      Normal(if !IsMobile(args[0]) then Arg(args, 1) else Undefined)
    else
      Throw("strategies[strategy] is not a function")
  }

  /** What one run does to `strategyAry`: `shift()` drops the strategy
      name, `unshift(value)` puts the field value in front and
      `push(errorMsg)` appends the message. */
  function Rearranged(ary: seq<string>, value: string, errorMsg: string): (r: seq<string>)
    requires |ary| >= 1
    ensures |r| == |ary| + 1 && r[0] == value && r[|r| - 1] == errorMsg
    ensures r[1..|r| - 1] == ary[1..]
  {
    [value] + ary[1..] + [errorMsg]
  }

  /** What a check does on its first run, for a rule string `strategy`. */
  function FirstRun(strategy: string, value: string, errorMsg: string): Completion<JsValue>
  {
    var ary := Split(strategy, ':');
    ApplyStrategy(ary[0], Rearranged(ary, value, errorMsg))
  }

  /** 'isNonEmpty' fails exactly for the empty value, with the rule's message. */
  lemma NonEmptyRule(value: string, errorMsg: string)
    ensures FirstRun("isNonEmpty", value, errorMsg) ==
      Normal(if value == "" then Str(errorMsg) else Undefined)
  {
    SplitWithoutSeparator("isNonEmpty", ':');
  }

  /** 'minLength:n' fails exactly when the value's `length`, counted in
      UTF-16 code units, is less than n. */
  lemma MinLengthRule(value: string, n: nat, errorMsg: string)
    ensures FirstRun("minLength:" + NatToString(n), value, errorMsg) ==
      Normal(if Utf16Length(value) < n then Str(errorMsg) else Undefined)
  {
    var digits := NatToString(n);
    assert ':' !in digits by {
      assert forall i :: 0 <= i < |digits| ==> IsDigit(digits[i]);
    }
    assert "minLength:" + digits == "minLength" + [':'] + digits;
    SplitAtSeparator("minLength", ':', digits);
    SplitWithoutSeparator(digits, ':');
    ParseNatToString(n);
    var ary := Split("minLength:" + digits, ':');
    assert ary == ["minLength", digits];
    assert Rearranged(ary, value, errorMsg) == [value, digits, errorMsg];
  }

  /** 'isMobile' fails exactly for values that do not fit the pattern. */
  lemma MobileRule(value: string, errorMsg: string)
    ensures FirstRun("isMobile", value, errorMsg) ==
      Normal(if IsMobile(value) then Undefined else Str(errorMsg))
  {
    SplitWithoutSeparator("isMobile", ':');
  }

  /** Strategy names that the table neither defines nor inherits make the
      check throw. */
  lemma UnknownRule(strategy: string, value: string, errorMsg: string)
    requires ':' !in strategy
    requires strategy !in StrategyNames && strategy !in ObjectPrototypeNames
    ensures FirstRun(strategy, value, errorMsg).Throw?
  {
    SplitWithoutSeparator(strategy, ':');
  }

  /** The pattern accepts ordinary numbers and, through the literal bar in
      the character class, '1|' numbers; it rejects other second digits and
      other lengths. */
  lemma MobileExamples()
    ensures IsMobile("13912345678") && IsMobile("18800000000")
    ensures IsMobile("1|123456789")
    ensures !IsMobile("12912345678")
    ensures !IsMobile("1391234567")
  {
    assert "12912345678"[1] == '2';
    assert |"1391234567"| == 10;
  }

  /** A form field; its `value` is whatever the user has typed by now. */
  class Field {
    var value: string

    constructor (value: string)
      ensures this.value == value
    {
      this.value := value;
    }
  }

  /** A validation rule as passed to `add`. */
  datatype Rule = Rule(strategy: string, errorMsg: string)

  /** The closure `add` queues for one rule.  It keeps the field (not its
      value), the rule's message and its own `strategyAry`, which every run
      rearranges; nothing outside the closure can reach that list. */
  datatype Check = Check(dom: Field, errorMsg: string, strategyAry: seq<string>)

  /** The closure built for one rule: the rule string split on ':'. */
  function NewCheck(dom: Field, rule: Rule): (c: Check)
    ensures c.dom == dom && c.errorMsg == rule.errorMsg
    ensures |c.strategyAry| >= 1 && Join(c.strategyAry, ':') == rule.strategy
    ensures forall i :: 0 <= i < |c.strategyAry| ==> ':' !in c.strategyAry[i]
  {
    JoinSplit(rule.strategy, ':');
    SplitPieces(rule.strategy, ':');
    Check(dom, rule.errorMsg, Split(rule.strategy, ':'))
  }

  /** A check's rearranged list starts with the field value it saw, so a
      second run looks that value up as a strategy name: unless the user
      typed a strategy's name (or the name of an inherited property), the
      second run throws. */
  lemma SecondRunLooksUpValue(ary: seq<string>, value: string, errorMsg: string, later: string)
    requires |ary| >= 1
    requires value !in StrategyNames && value !in ObjectPrototypeNames
    ensures var again := Rearranged(ary, value, errorMsg);
      ApplyStrategy(again[0], Rearranged(again, later, errorMsg)).Throw?
  {
  }

  /** What a queued check would run with now: its list, the field's
      current value and its message. */
  datatype CheckState = CheckState(ary: seq<string>, value: string, errorMsg: string)

  predicate Runnable(states: seq<CheckState>)
  {
    forall i :: 0 <= i < |states| ==> |states[i].ary| >= 1
  }

  function RunResult(s: CheckState): Completion<JsValue>
    requires |s.ary| >= 1
  {
    ApplyStrategy(s.ary[0], Rearranged(s.ary, s.value, s.errorMsg))
  }

  /** What each check would return if run now, in queue order. */
  function Outcomes(states: seq<CheckState>): (r: seq<Completion<JsValue>>)
    requires Runnable(states)
    ensures |r| == |states|
    ensures forall i :: 0 <= i < |states| ==> r[i] == RunResult(states[i])
  {
    seq(|states|, i requires 0 <= i < |states| => RunResult(states[i]))
  }

  /** A check's result stops `start` when it threw or is a truthy message. */
  predicate Stops(r: Completion<JsValue>)
  {
    r.Throw? || Truthy(r.value)
  }

  /** How many checks `start` runs: up to and including the first whose
      result stops it, or all of them. */
  function ChecksRun(results: seq<Completion<JsValue>>): (n: nat)
    ensures n <= |results|
  {
    if results == [] then 0
    else if Stops(results[0]) then 1
    else 1 + ChecksRun(results[1..])
  }

  /** What `start` returns: the first thrown error or truthy message, in
      queue order; undefined when no check stops it. */
  function FirstError(results: seq<Completion<JsValue>>): Completion<JsValue>
  {
    if results == [] then Normal(Undefined)
    else if Stops(results[0]) then results[0]
    else FirstError(results[1..])
  }

  /** `start` stops at the first check that throws or returns a truthy
      message, runs none after it, and returns that check's result; when no
      check stops it, all of them run and the result is undefined. */
  lemma {:induction false} FirstErrorIsFirstStop(results: seq<Completion<JsValue>>)
    ensures forall i :: 0 <= i < ChecksRun(results) - 1 ==> !Stops(results[i])
    ensures (exists i :: 0 <= i < |results| && Stops(results[i])) ==>
      && ChecksRun(results) >= 1 && Stops(results[ChecksRun(results) - 1])
      && FirstError(results) == results[ChecksRun(results) - 1]
    ensures (forall i :: 0 <= i < |results| ==> !Stops(results[i])) ==>
      ChecksRun(results) == |results| && FirstError(results) == Normal(Undefined)
  {
    if results != [] && !Stops(results[0]) {
      var rest := results[1..];
      FirstErrorIsFirstStop(rest);
      forall i | 0 <= i < ChecksRun(results) - 1
        ensures !Stops(results[i])
      {
        if i > 0 {
          assert results[i] == rest[i - 1];
        }
      }
      if exists i :: 0 <= i < |results| && Stops(results[i]) {
        var i :| 0 <= i < |results| && Stops(results[i]);
        assert rest[i - 1] == results[i];
      }
      if forall i :: 0 <= i < |results| ==> !Stops(results[i]) {
        forall i | 0 <= i < |rest| ensures !Stops(rest[i]) {
          assert rest[i] == results[i + 1];
        }
      }
    }
  }

  /** The state each of `checks` would run with now. */
  ghost function StatesOf(checks: seq<Check>): (s: seq<CheckState>)
    reads set i | 0 <= i < |checks| :: checks[i].dom
    ensures |s| == |checks|
    ensures forall i :: 0 <= i < |checks| ==>
      s[i] == CheckState(checks[i].strategyAry, checks[i].dom.value, checks[i].errorMsg)
  {
    if checks == [] then []
    else
      var c := checks[0];
      [CheckState(c.strategyAry, c.dom.value, c.errorMsg)] + StatesOf(checks[1..])
  }

  /** One step of `start` over the remaining results `results[i..]`. */
  lemma StartStep(results: seq<Completion<JsValue>>, i: nat)
    requires i < |results|
    ensures FirstError(results[i..]) ==
      if Stops(results[i]) then results[i] else FirstError(results[i + 1..])
    ensures ChecksRun(results[i..]) ==
      if Stops(results[i]) then 1 else 1 + ChecksRun(results[i + 1..])
  {
    assert results[i..][0] == results[i];
    assert results[i..][1..] == results[i + 1..];
  }

  /** The form validator: the queue of checks added so far. */
  class Validator {
    var cache: seq<Check>

    /** Every queued check has a strategy name to look up. */
    ghost predicate Valid()
      reads this
    {
      forall i :: 0 <= i < |cache| ==> |cache[i].strategyAry| >= 1
    }

    /** The state every queued check would run with now. */
    ghost function States(): (s: seq<CheckState>)
      requires Valid()
      reads this, set i | 0 <= i < |cache| :: cache[i].dom
      ensures |s| == |cache| && Runnable(s)
    {
      StatesOf(cache)
    }

    constructor ()
      ensures Valid() && cache == []
    {
      cache := [];
    }

    /** `add(dom, rules)`: one new check per rule, queued in rule order. */
    method Add(dom: Field, rules: seq<Rule>)
      requires Valid()
      modifies this
      ensures Valid()
      ensures cache == old(cache) + seq(|rules|, k requires 0 <= k < |rules| => NewCheck(dom, rules[k]))
    {
      var i := 0;
      while i < |rules|
        invariant 0 <= i <= |rules|
        invariant Valid()
        invariant cache == old(cache) + seq(i, k requires 0 <= k < i => NewCheck(dom, rules[k]))
      {
        cache := cache + [NewCheck(dom, rules[i])];
        i := i + 1;
      }
    }

    /** `start()`: runs the checks in queue order against the fields'
        current values and stops at the first that throws or returns a
        truthy message; later checks are not run.  Each run rearranges its
        check's list. */
    method Start() returns (r: Completion<JsValue>)
      requires Valid()
      modifies this
      ensures Valid()
      ensures r == FirstError(Outcomes(old(States())))
      ensures |cache| == |old(cache)|
      ensures forall i :: 0 <= i < |cache| ==>
        cache[i] == if i < ChecksRun(Outcomes(old(States())))
          then old(cache[i]).(strategyAry :=
            Rearranged(old(cache[i].strategyAry), old(cache[i].dom.value), old(cache[i].errorMsg)))
          else old(cache[i])
    {
      ghost var states := States();
      ghost var results := Outcomes(states);
      var i := 0;
      while i < |cache|
        invariant 0 <= i <= |cache| == |old(cache)|
        invariant Valid()
        invariant FirstError(results) == FirstError(results[i..])
        invariant ChecksRun(results) == i + ChecksRun(results[i..])
        invariant forall j :: 0 <= j < i ==>
          cache[j] == old(cache[j]).(strategyAry :=
            Rearranged(states[j].ary, states[j].value, states[j].errorMsg))
        invariant forall j :: i <= j < |cache| ==> cache[j] == old(cache[j])
      {
        StartStep(results, i);
        var check := cache[i];
        var strategy := check.strategyAry[0];
        var ary := check.strategyAry[1..];
        ary := [check.dom.value] + ary;
        ary := ary + [check.errorMsg];
        cache := cache[i := check.(strategyAry := ary)];
        r := ApplyStrategy(strategy, ary);
        assert r == results[i];
        if r.Throw? || Truthy(r.value) {
          return;
        }
        i := i + 1;
      }
      assert results[|cache|..] == [];
      r := Normal(Undefined);
    }
  }
}
