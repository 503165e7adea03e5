/** The map from a schema's constructor name to the generator registered for
    it. */
module Registry {
  import opened Wrappers
  import opened Schemas

  /** The generator objects the registry can hold, one per generator class. */
  datatype ZGenerator =
    | StringGenerator
    | NumberGenerator
    | BooleanGenerator
    | EnumGenerator
    | OptionalGenerator
    | NullableGenerator

  /** The registrations `DefaultGeneratorRegistry` performs. */
  function DefaultGenerators(): map<string, ZGenerator> {
    map["ZodString" := StringGenerator, "ZodNumber" := NumberGenerator, "ZodBoolean" := BooleanGenerator]
  }

  class GeneratorRegistry {
    var generators: map<string, ZGenerator>

    /** A registry with nothing registered. */
    constructor ()
      ensures generators == map[]
    {
      generators := map[];
    }

    /** `new DefaultGeneratorRegistry()`: the string, number and boolean
        generators under their kinds' names, and nothing else; in particular
        no enum generator. */
    constructor Default()
      ensures generators.Keys == {"ZodString", "ZodNumber", "ZodBoolean"}
      ensures generators == DefaultGenerators()
      ensures "ZodEnum" !in generators
    {
      generators := map[];
      new;
      Register("ZodString", StringGenerator);
      Register("ZodNumber", NumberGenerator);
      Register("ZodBoolean", BooleanGenerator);
    }

    /** `register(key, g)`: afterwards `key` yields `g`, whatever it held
        before, and every other key yields what it yielded before. */
    method Register(key: string, g: ZGenerator)
      modifies this
      ensures generators == old(generators)[key := g]
      ensures Get(key) == Some(g)
      ensures forall other :: other != key ==> Get(other) == old(Get(other))
    {
      generators := generators[key := g];
    }

    /** `get(key)`: the generator last registered under `key`, or undefined
        when none was. */
    function Get(key: string): (r: Option<ZGenerator>)
      reads this
      ensures r.Some? <==> key in generators
      ensures r.Some? ==> r.value == generators[key]
    {
      if key in generators then Some(generators[key]) else None
    }

    /** `getGeneratorForSchema(schema)`: the lookup by the schema's
        constructor name. */
    function GetGeneratorForSchema(s: Schema): (r: Option<ZGenerator>)
      reads this
      ensures r.Some? <==> KindName(s) in generators
      ensures r.Some? ==> r.value == generators[KindName(s)]
    {
      Get(KindName(s))
    }
  }
}
