/**
 * The automatic-cast rule tables of the scalar function registry and the
 * registration step that decides which table applies to which function.
 * A rule (from, to) lets the type checker insert a cast from 'from' to 'to'
 * when an argument does not match any signature of a function.
 */
module AutoCast {
  import opened Types

  type Rule = (DataType, DataType)

  /** The rules for any situation, including comparison functions and joins. */
  function GeneralCastRules(): (rules: seq<Rule>)
    // A string is only ever auto-cast to a timestamp, a date or a boolean,
    // never to a number: this is what keeps `1 < '1'` an error.
    ensures forall i :: 0 <= i < |rules| && rules[i].0 == String ==>
              rules[i].1 == Timestamp || rules[i].1 == Date || rules[i].1 == Boolean
    // Sources are strings, dates and numbers only; no rule is a no-op or produces a nullable.
    ensures forall i :: 0 <= i < |rules| ==>
              (rules[i].0 == String || rules[i].0 == Date || rules[i].0.Number?) &&
              rules[i].0 != rules[i].1 && !rules[i].1.Nullable?
    // Numbers only go to numbers.
    ensures forall i :: 0 <= i < |rules| && rules[i].0.Number? ==> rules[i].1.Number?
  {
    [ (String, Timestamp),
      (String, Date),
      (String, Boolean),
      (Date, Timestamp),
      (Number(UInt8), Number(UInt16)),
      (Number(UInt8), Number(UInt32)),
      (Number(UInt8), Number(UInt64)),
      (Number(UInt8), Number(Int16)),
      (Number(UInt8), Number(Int32)),
      (Number(UInt8), Number(Int64)),
      (Number(UInt8), Number(Float32)),
      (Number(UInt8), Number(Float64)),
      (Number(UInt16), Number(UInt32)),
      (Number(UInt16), Number(UInt64)),
      (Number(UInt16), Number(Int32)),
      (Number(UInt16), Number(Int64)),
      (Number(UInt16), Number(Float32)),
      (Number(UInt16), Number(Float64)),
      (Number(UInt32), Number(UInt64)),
      (Number(UInt32), Number(Int64)),
      (Number(UInt32), Number(Float64)),
      (Number(UInt64), Number(Int64)),
      (Number(UInt64), Number(Float64)),
      (Number(Int8), Number(Int16)),
      (Number(Int8), Number(Int32)),
      (Number(Int8), Number(Int64)),
      (Number(Int8), Number(Float32)),
      (Number(Int8), Number(Float64)),
      (Number(Int16), Number(Int32)),
      (Number(Int16), Number(Int64)),
      (Number(Int16), Number(Float32)),
      (Number(Int16), Number(Float64)),
      (Number(Int32), Number(Int64)),
      (Number(Int32), Number(Float64)),
      (Number(Int64), Number(Float64)),
      (Number(Float32), Number(Float64))
    ]
  }

  /** The three string targets of the general table are all present. */
  lemma GeneralStringTargets()
    ensures (String, Timestamp) in GeneralCastRules()
    ensures (String, Date) in GeneralCastRules()
    ensures (String, Boolean) in GeneralCastRules()
  {
    assert GeneralCastRules()[0] == (String, Timestamp);
    assert GeneralCastRules()[1] == (String, Date);
    assert GeneralCastRules()[2] == (String, Boolean);
  }

  /** Casts from a string to each integer type; meant for functions such as add_hours. */
  function CastFromStringRules(): (rules: seq<Rule>)
    ensures forall i :: 0 <= i < |rules| ==> rules[i].0 == String && rules[i].1.Number? && IsInteger(rules[i].1.num)
    ensures forall n :: IsInteger(n) ==> (String, Number(n)) in rules
  {
    [ (String, Number(UInt8)), (String, Number(UInt16)), (String, Number(UInt32)), (String, Number(UInt64)),
      (String, Number(Int8)), (String, Number(Int16)), (String, Number(Int32)), (String, Number(Int64)) ]
  }

  /** The scalar types a variant may be auto-cast to, each wrapped in Nullable. */
  const VariantTargets: seq<DataType> :=
    [ Boolean, Date, Timestamp, String,
      Number(UInt8), Number(UInt16), Number(UInt32), Number(UInt64),
      Number(Int8), Number(Int16), Number(Int32), Number(Int64),
      Number(Float32), Number(Float64) ]

  /** Casts from one variant source to every variant target, in table order. */
  function VariantRulesFrom(source: DataType): (rules: seq<Rule>)
    ensures |rules| == |VariantTargets|
    // Every rule starts at 'source' and ends at a variant target made nullable ...
    ensures forall i :: 0 <= i < |rules| ==>
              rules[i].0 == source && rules[i].1.Nullable? && rules[i].1.inner in VariantTargets
    // ... and every variant target is reached.
    ensures forall t :: t in VariantTargets ==> (source, Nullable(t)) in rules
  {
    var rules := seq(|VariantTargets|, i requires 0 <= i < |VariantTargets| => (source, Nullable(VariantTargets[i])));
    assert forall t :: t in VariantTargets ==> (source, Nullable(t)) in rules by {
      forall t | t in VariantTargets
        ensures (source, Nullable(t)) in rules
      {
        var i :| 0 <= i < |VariantTargets| && VariantTargets[i] == t;
        assert rules[i] == (source, Nullable(t));
      }
    }
    rules
  }

  /** Casts from a variant, then from a nullable variant, to each nullable scalar. */
  function CastFromVariantRules(): (rules: seq<Rule>)
    ensures forall i :: 0 <= i < |rules| ==>
              (rules[i].0 == Variant || rules[i].0 == Nullable(Variant)) && rules[i].1.Nullable?
    ensures |rules| == 2 * |VariantTargets|
  {
    VariantRulesFrom(Variant) + VariantRulesFrom(Nullable(Variant))
  }

  /** Every variant target is reachable from both a variant and a nullable variant. */
  lemma VariantRulesCoverTargets(t: DataType)
    requires t in VariantTargets
    ensures (Variant, Nullable(t)) in CastFromVariantRules()
    ensures (Nullable(Variant), Nullable(t)) in CastFromVariantRules()
  {
    var plain, nullable := VariantRulesFrom(Variant), VariantRulesFrom(Nullable(Variant));
    assert CastFromVariantRules() == plain + nullable;
  }

  /** True of a rule that casts a string to a number. */
  predicate StringToNumber(r: Rule) {
    r.0 == String && r.1.Number?
  }

  lemma GeneralHasNoStringToNumber(r: Rule)
    requires r in GeneralCastRules()
    ensures !StringToNumber(r)
  {
    var rules := GeneralCastRules();
    var i :| 0 <= i < |rules| && rules[i] == r;
  }

  /** The general table never casts from a variant or from a nullable type. */
  lemma GeneralNotFromVariant(r: Rule)
    requires r in GeneralCastRules()
    ensures !r.0.Variant? && !r.0.Nullable?
  {
    var rules := GeneralCastRules();
    var i :| 0 <= i < |rules| && rules[i] == r;
  }

  lemma VariantHasNoStringToNumber(r: Rule)
    requires r in CastFromVariantRules()
    ensures !StringToNumber(r)
  {
    var rules := CastFromVariantRules();
    var i :| 0 <= i < |rules| && rules[i] == r;
  }

  // ---------------------------------------------------------------------
  // The registry and what registration adds to it
  // ---------------------------------------------------------------------

  /** The rules registered for one function name; a name with no entry has none. */
  function RulesOf(m: map<string, seq<Rule>>, name: string): seq<Rule> {
    if name in m then m[name] else []
  }

  /** The map with 'rules' appended to the entry of 'name', created empty if missing. */
  function WithRules(m: map<string, seq<Rule>>, name: string, rules: seq<Rule>): map<string, seq<Rule>> {
    m[name := RulesOf(m, name) + rules]
  }

  /** Appending twice to one name is appending the concatenation once. */
  lemma AppendTwice(m: map<string, seq<Rule>>, name: string, first: seq<Rule>, second: seq<Rule>)
    ensures WithRules(WithRules(m, name, first), name, second) == WithRules(m, name, first + second)
  {
    assert RulesOf(WithRules(m, name, first), name) + second == RulesOf(m, name) + (first + second);
  }

  /**
   * The cast-rule part of the function registry: rules applied to every
   * function, rules tried with try_cast, and extra rules per function name.
   */
  class FunctionRegistry {
    var defaultCastRules: seq<Rule>
    var autoTryCastRules: seq<Rule>
    var additionalCastRules: map<string, seq<Rule>>

    constructor Empty()
      ensures defaultCastRules == [] && autoTryCastRules == [] && additionalCastRules == map[]
    {
      defaultCastRules, autoTryCastRules, additionalCastRules := [], [], map[];
    }

    method RegisterDefaultCastRules(rules: seq<Rule>)
      modifies this`defaultCastRules
      ensures defaultCastRules == old(defaultCastRules) + rules
    {
      defaultCastRules := defaultCastRules + rules;
    }

    method RegisterAutoTryCastRules(rules: seq<Rule>)
      modifies this`autoTryCastRules
      ensures autoTryCastRules == old(autoTryCastRules) + rules
    {
      autoTryCastRules := autoTryCastRules + rules;
    }

    method RegisterAdditionalCastRules(name: string, rules: seq<Rule>)
      modifies this`additionalCastRules
      ensures additionalCastRules == WithRules(old(additionalCastRules), name, rules)
    {
      additionalCastRules := additionalCastRules[name := RulesOf(additionalCastRules, name) + rules];
    }
  }

  /** The boolean functions that also accept integer arguments. */
  const LogicalFunctionNames: seq<string> := ["and", "or", "not", "xor"]

  /**
   * What one boolean function has received once the inner registration loop
   * has run over 'types': for each type its cast to Boolean, followed by
   * 'tables' (the general, string and variant rules) once more.
   */
  function LogicalBlock(types: seq<NumberDataType>, tables: seq<Rule>): seq<Rule> {
    if |types| == 0 then []
    else LogicalBlock(types[..|types| - 1], tables) + ([(Number(types[|types| - 1]), Boolean)] + tables)
  }

  /** The map after appending 'block' to the rules of each name in turn. */
  function AppendForNames(m: map<string, seq<Rule>>, names: seq<string>, block: seq<Rule>): map<string, seq<Rule>> {
    if |names| == 0 then m
    else WithRules(AppendForNames(m, names[..|names| - 1], block), names[|names| - 1], block)
  }

  /** The per-name rules after registration with the given tables, starting from 'm'. */
  function AdditionsWith(m: map<string, seq<Rule>>, general: seq<Rule>, fromString: seq<Rule>, fromVariant: seq<Rule>,
                         simpleCastNames: seq<string>, comparisonNames: seq<string>): map<string, seq<Rule>>
  {
    var logical := AppendForNames(m, LogicalFunctionNames, LogicalBlock(AllIntegerTypes, general + fromString + fromVariant));
    var simple := AppendForNames(logical, simpleCastNames, general);
    AppendForNames(simple, comparisonNames, general + fromVariant)
  }

  /** The per-name rules after registration, starting from 'm'. */
  function AutoCastAdditions(m: map<string, seq<Rule>>, simpleCastNames: seq<string>, comparisonNames: seq<string>)
    : map<string, seq<Rule>>
  {
    AdditionsWith(m, GeneralCastRules(), CastFromStringRules(), CastFromVariantRules(), simpleCastNames, comparisonNames)
  }

  /**
   * Registers the auto-cast rules. The names of the simple cast functions
   * and of the comparison functions are defined outside this module and are
   * given here.
   */
  method RegisterAutoCastRules(registry: FunctionRegistry, simpleCastNames: seq<string>, comparisonNames: seq<string>)
    modifies registry
    ensures registry.defaultCastRules ==
            old(registry.defaultCastRules) + GeneralCastRules() + CastFromStringRules() + CastFromVariantRules()
    ensures registry.autoTryCastRules == old(registry.autoTryCastRules) + CastFromVariantRules()
    ensures registry.additionalCastRules ==
            AutoCastAdditions(old(registry.additionalCastRules), simpleCastNames, comparisonNames)
  {
    RegisterWith(registry, GeneralCastRules(), CastFromStringRules(), CastFromVariantRules(), simpleCastNames, comparisonNames);
  }

  /** The registration steps, over the three tables they are given. */
  method RegisterWith(registry: FunctionRegistry, general: seq<Rule>, fromString: seq<Rule>, fromVariant: seq<Rule>,
                      simpleCastNames: seq<string>, comparisonNames: seq<string>)
    modifies registry
    ensures registry.defaultCastRules == old(registry.defaultCastRules) + general + fromString + fromVariant
    ensures registry.autoTryCastRules == old(registry.autoTryCastRules) + fromVariant
    ensures registry.additionalCastRules ==
            AdditionsWith(old(registry.additionalCastRules), general, fromString, fromVariant, simpleCastNames, comparisonNames)
  {
    registry.RegisterDefaultCastRules(general);
    registry.RegisterDefaultCastRules(fromString);
    registry.RegisterDefaultCastRules(fromVariant);
    registry.RegisterAutoTryCastRules(fromVariant);
    RegisterLogicalRules(registry, general, fromString, fromVariant);
    RegisterSimpleCastRules(registry, simpleCastNames, general);
    RegisterComparisonRules(registry, comparisonNames, general, fromVariant);
  }

  /** The loop over and/or/not/xor. */
  method RegisterLogicalRules(registry: FunctionRegistry, general: seq<Rule>, fromString: seq<Rule>, fromVariant: seq<Rule>)
    modifies registry`additionalCastRules
    ensures registry.additionalCastRules ==
            AppendForNames(old(registry.additionalCastRules), LogicalFunctionNames,
                           LogicalBlock(AllIntegerTypes, general + fromString + fromVariant))
  {
    var m0 := registry.additionalCastRules;
    for i := 0 to |LogicalFunctionNames|
      invariant registry.additionalCastRules ==
                AppendForNames(m0, LogicalFunctionNames[..i], LogicalBlock(AllIntegerTypes, general + fromString + fromVariant))
    {
      RegisterIntegerRules(registry, LogicalFunctionNames[i], AllIntegerTypes, general, fromString, fromVariant);
      assert LogicalFunctionNames[..i + 1][..i] == LogicalFunctionNames[..i];
    }
    assert LogicalFunctionNames[..|LogicalFunctionNames|] == LogicalFunctionNames;
  }

  /** The inner loop over the integer types 'types' for one boolean function. */
  method RegisterIntegerRules(registry: FunctionRegistry, name: string, types: seq<NumberDataType>,
                              general: seq<Rule>, fromString: seq<Rule>, fromVariant: seq<Rule>)
    requires |types| > 0
    modifies registry`additionalCastRules
    ensures registry.additionalCastRules ==
            WithRules(old(registry.additionalCastRules), name, LogicalBlock(types, general + fromString + fromVariant))
  {
    ghost var tables := general + fromString + fromVariant;
    ghost var m0 := registry.additionalCastRules;
    for j := 0 to |types|
      invariant j == 0 ==> registry.additionalCastRules == m0
      invariant j > 0 ==> registry.additionalCastRules == WithRules(m0, name, LogicalBlock(types[..j], tables))
    {
      RegisterIntegerType(registry, name, types[j], general, fromString, fromVariant);
      ghost var step := [(Number(types[j]), Boolean)] + tables;
      ghost var block := LogicalBlock(types[..j], tables);
      assert types[..j + 1][..j] == types[..j];
      assert LogicalBlock(types[..j + 1], tables) == block + step;
      if j > 0 {
        AppendTwice(m0, name, block, step);
      } else {
        assert block + step == step;
      }
    }
    assert types[..|types|] == types;
  }

  /** One pass of the inner loop: the integer type's cast to Boolean, then the three tables. */
  method RegisterIntegerType(registry: FunctionRegistry, name: string, dataType: NumberDataType,
                             general: seq<Rule>, fromString: seq<Rule>, fromVariant: seq<Rule>)
    modifies registry`additionalCastRules
    ensures registry.additionalCastRules ==
            WithRules(old(registry.additionalCastRules), name, [(Number(dataType), Boolean)] + (general + fromString + fromVariant))
  {
    ghost var m0 := registry.additionalCastRules;
    var cast := (Number(dataType), Boolean);
    registry.RegisterAdditionalCastRules(name, [cast]);
    registry.RegisterAdditionalCastRules(name, general);
    AppendTwice(m0, name, [cast], general);
    registry.RegisterAdditionalCastRules(name, fromString);
    AppendTwice(m0, name, [cast] + general, fromString);
    registry.RegisterAdditionalCastRules(name, fromVariant);
    AppendTwice(m0, name, [cast] + general + fromString, fromVariant);
    Regroup([cast], general, fromString, fromVariant);
  }

  lemma Regroup(a: seq<Rule>, b: seq<Rule>, c: seq<Rule>, d: seq<Rule>)
    ensures a + b + c + d == a + (b + c + d)
  {
  }

  /** The loop over the simple cast functions: general rules only. */
  method RegisterSimpleCastRules(registry: FunctionRegistry, names: seq<string>, general: seq<Rule>)
    modifies registry`additionalCastRules
    ensures registry.additionalCastRules == AppendForNames(old(registry.additionalCastRules), names, general)
  {
    var m0 := registry.additionalCastRules;
    for i := 0 to |names|
      invariant registry.additionalCastRules == AppendForNames(m0, names[..i], general)
    {
      // No cast from strings or variants for the cast functions themselves.
      registry.RegisterAdditionalCastRules(names[i], general);
      assert names[..i + 1][..i] == names[..i];
    }
    assert names[..|names|] == names;
  }

  /** The loop over the comparison functions: general and variant rules, no string rules. */
  method RegisterComparisonRules(registry: FunctionRegistry, names: seq<string>, general: seq<Rule>, fromVariant: seq<Rule>)
    modifies registry`additionalCastRules
    ensures registry.additionalCastRules == AppendForNames(old(registry.additionalCastRules), names, general + fromVariant)
  {
    var m0 := registry.additionalCastRules;
    for i := 0 to |names|
      invariant registry.additionalCastRules == AppendForNames(m0, names[..i], general + fromVariant)
    {
      ghost var before := registry.additionalCastRules;
      // No cast from strings, so that comparing a number with a string is an error.
      registry.RegisterAdditionalCastRules(names[i], general);
      registry.RegisterAdditionalCastRules(names[i], fromVariant);
      AppendTwice(before, names[i], general, fromVariant);
      assert names[..i + 1][..i] == names[..i];
    }
    assert names[..|names|] == names;
  }
}

/** What a function name ends up with after registration. */
module AutoCastProperties {
  import opened Types
  import opened AutoCast

  lemma {:induction false} AppendForNamesKeys(m: map<string, seq<Rule>>, names: seq<string>, block: seq<Rule>, f: string)
    ensures f in AppendForNames(m, names, block) <==> f in m || f in names
    decreases |names|
  {
    if |names| > 0 {
      var init := names[..|names| - 1];
      AppendForNamesKeys(m, init, block, f);
      assert names == init + [names[|names| - 1]];
    }
  }

  /** A name holds a rule afterwards iff it held it before, or it was registered and the rule is in the block. */
  lemma {:induction false} AppendForNamesMembers(m: map<string, seq<Rule>>, names: seq<string>, block: seq<Rule>, f: string, r: Rule)
    ensures r in RulesOf(AppendForNames(m, names, block), f) <==> r in RulesOf(m, f) || (f in names && r in block)
    decreases |names|
  {
    if |names| > 0 {
      var init := names[..|names| - 1];
      AppendForNamesMembers(m, init, block, f, r);
      assert names == init + [names[|names| - 1]];
    }
  }

  /** The inner loop leaves, for each integer type it visited, that type's cast to Boolean, and the tables once it has run at all. */
  lemma {:induction false} LogicalBlockMembers(types: seq<NumberDataType>, tables: seq<Rule>, r: Rule)
    ensures r in LogicalBlock(types, tables) <==>
            (|types| > 0 && r in tables) || (r.0.Number? && r.0.num in types && r.1 == Boolean)
    decreases |types|
  {
    if |types| > 0 {
      var init := types[..|types| - 1];
      LogicalBlockMembers(init, tables, r);
      assert types == init + [types[|types| - 1]];
    }
  }

  lemma IntegerTypesListed(n: NumberDataType)
    ensures IsInteger(n) <==> n in AllIntegerTypes
  {
  }

  /**
   * A comparison function that is neither a boolean function nor a cast
   * function gets exactly the general and variant rules, and so no cast
   * from a string to a number.
   */
  lemma ComparisonRules(m: map<string, seq<Rule>>, simpleCastNames: seq<string>, comparisonNames: seq<string>, f: string, r: Rule)
    requires f in comparisonNames && f !in simpleCastNames && f !in LogicalFunctionNames && f !in m
    ensures r in RulesOf(AutoCastAdditions(m, simpleCastNames, comparisonNames), f) <==>
            r in GeneralCastRules() || r in CastFromVariantRules()
    ensures r in RulesOf(AutoCastAdditions(m, simpleCastNames, comparisonNames), f) ==> !StringToNumber(r)
  {
    var tables := GeneralCastRules() + CastFromStringRules() + CastFromVariantRules();
    var logical := AppendForNames(m, LogicalFunctionNames, LogicalBlock(AllIntegerTypes, tables));
    var simple := AppendForNames(logical, simpleCastNames, GeneralCastRules());
    AppendForNamesMembers(m, LogicalFunctionNames, LogicalBlock(AllIntegerTypes, tables), f, r);
    AppendForNamesMembers(logical, simpleCastNames, GeneralCastRules(), f, r);
    AppendForNamesMembers(simple, comparisonNames, GeneralCastRules() + CastFromVariantRules(), f, r);
    if r in GeneralCastRules() {
      GeneralHasNoStringToNumber(r);
    }
    if r in CastFromVariantRules() {
      VariantHasNoStringToNumber(r);
    }
  }

  /** A simple cast function that is nothing else gets exactly the general rules: no string or variant rules. */
  lemma SimpleCastRules(m: map<string, seq<Rule>>, simpleCastNames: seq<string>, comparisonNames: seq<string>, f: string, r: Rule)
    requires f in simpleCastNames && f !in comparisonNames && f !in LogicalFunctionNames && f !in m
    ensures r in RulesOf(AutoCastAdditions(m, simpleCastNames, comparisonNames), f) <==> r in GeneralCastRules()
    ensures r in RulesOf(AutoCastAdditions(m, simpleCastNames, comparisonNames), f) ==>
            !StringToNumber(r) && r.0 != Variant && r.0 != Nullable(Variant)
  {
    var tables := GeneralCastRules() + CastFromStringRules() + CastFromVariantRules();
    var logical := AppendForNames(m, LogicalFunctionNames, LogicalBlock(AllIntegerTypes, tables));
    var simple := AppendForNames(logical, simpleCastNames, GeneralCastRules());
    AppendForNamesMembers(m, LogicalFunctionNames, LogicalBlock(AllIntegerTypes, tables), f, r);
    AppendForNamesMembers(logical, simpleCastNames, GeneralCastRules(), f, r);
    AppendForNamesMembers(simple, comparisonNames, GeneralCastRules() + CastFromVariantRules(), f, r);
    if r in GeneralCastRules() {
      GeneralHasNoStringToNumber(r);
      GeneralNotFromVariant(r);
    }
  }

  /**
   * Each of and/or/not/xor accepts every integer type by a cast to Boolean,
   * and also holds every general, string and variant rule; when the name is
   * registered nowhere else, those are all it holds.
   */
  lemma LogicalRules(m: map<string, seq<Rule>>, simpleCastNames: seq<string>, comparisonNames: seq<string>, f: string, r: Rule)
    requires f in LogicalFunctionNames
    ensures r.0.Number? && IsInteger(r.0.num) && r.1 == Boolean ==>
            r in RulesOf(AutoCastAdditions(m, simpleCastNames, comparisonNames), f)
    ensures r in GeneralCastRules() || r in CastFromStringRules() || r in CastFromVariantRules() ==>
            r in RulesOf(AutoCastAdditions(m, simpleCastNames, comparisonNames), f)
    ensures f !in simpleCastNames && f !in comparisonNames && f !in m ==>
            (r in RulesOf(AutoCastAdditions(m, simpleCastNames, comparisonNames), f) <==>
             r in GeneralCastRules() || r in CastFromStringRules() || r in CastFromVariantRules() ||
             (r.0.Number? && IsInteger(r.0.num) && r.1 == Boolean))
  {
    var tables := GeneralCastRules() + CastFromStringRules() + CastFromVariantRules();
    var logical := AppendForNames(m, LogicalFunctionNames, LogicalBlock(AllIntegerTypes, tables));
    var simple := AppendForNames(logical, simpleCastNames, GeneralCastRules());
    AppendForNamesMembers(m, LogicalFunctionNames, LogicalBlock(AllIntegerTypes, tables), f, r);
    AppendForNamesMembers(logical, simpleCastNames, GeneralCastRules(), f, r);
    AppendForNamesMembers(simple, comparisonNames, GeneralCastRules() + CastFromVariantRules(), f, r);
    LogicalBlockMembers(AllIntegerTypes, tables, r);
    if r.0.Number? {
      IntegerTypesListed(r.0.num);
    }
  }

  /** Registration gives an entry to exactly the names it visits. */
  lemma RegisteredNames(m: map<string, seq<Rule>>, simpleCastNames: seq<string>, comparisonNames: seq<string>, f: string)
    ensures f in AutoCastAdditions(m, simpleCastNames, comparisonNames) <==>
            f in m || f in LogicalFunctionNames || f in simpleCastNames || f in comparisonNames
  {
    var tables := GeneralCastRules() + CastFromStringRules() + CastFromVariantRules();
    var logical := AppendForNames(m, LogicalFunctionNames, LogicalBlock(AllIntegerTypes, tables));
    var simple := AppendForNames(logical, simpleCastNames, GeneralCastRules());
    AppendForNamesKeys(m, LogicalFunctionNames, LogicalBlock(AllIntegerTypes, tables), f);
    AppendForNamesKeys(logical, simpleCastNames, GeneralCastRules(), f);
    AppendForNamesKeys(simple, comparisonNames, GeneralCastRules() + CastFromVariantRules(), f);
  }
}
