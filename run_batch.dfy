/**
 * The command-line front end of the batch runner: parsing the `--models`
 * argument into (model name, provider) pairs and turning the `run`
 * sub-command's arguments into a batch configuration.
 */
module RunBatch {
  import opened Options
  import opened PyStrings
  import Runner

  /** The provider an item without a colon gets. */
  const DefaultProvider := "openai"

  /** What `parse_models` makes of one comma-separated item. */
  function ParseItem(item: string): (pair: (string, string))
    ensures ':' !in pair.1
  {
    var s := Strip(item);
    match LastIndex(s, ':')
    case None => (s, DefaultProvider)
    case Some(k) =>
      StripKeepsOut(s[k + 1..], ':');
      (Strip(s[..k]), Strip(s[k + 1..]))
  }

  /** The pairs of a list of items, one per item, in order. */
  function ParseItems(items: seq<string>): (models: seq<(string, string)>)
    ensures |models| == |items|
    ensures forall i :: 0 <= i < |items| ==> models[i] == ParseItem(items[i])
  {
    if items == [] then []
    else ParseItems(items[..|items| - 1]) + [ParseItem(items[|items| - 1])]
  }

  /** `parse_models`: the items are appended one after another. */
  method ParseModels(modelsStr: string) returns (models: seq<(string, string)>)
    ensures models == ParseItems(Split(modelsStr, ','))
  {
    var items := Split(modelsStr, ',');
    models := [];
    for i := 0 to |items|
      invariant models == ParseItems(items[..i])
    {
      assert items[..i + 1][..i] == items[..i];
      models := models + [ParseItem(items[i])];
    }
    assert items[..|items|] == items;
  }

  /** An item is cut at its last colon, the one with no colon after it, and both sides are stripped. */
  lemma ColonItem(item: string, name: string, provider: string)
    requires Strip(item) == name + ":" + provider && ':' !in provider
    ensures ParseItem(item) == (Strip(name), Strip(provider))
  {
    var s := Strip(item);
    LastIndexAt(name, ':', provider);
    assert s[..|name|] == name && s[|name| + 1..] == provider;
  }

  /** An item without a colon is a model name served by the default provider. */
  lemma BareItem(item: string)
    requires ':' !in Strip(item)
    ensures ParseItem(item) == (Strip(item), "openai")
  {
  }

  /** A pair the parser can read back: no comma anywhere, no colon in the provider, no outer spaces. */
  predicate Writable(pair: (string, string)) {
    && ',' !in pair.0 && ',' !in pair.1 && ':' !in pair.1
    && Trimmed(pair.0) && Trimmed(pair.1)
  }

  /** The `--models` text for a list of pairs: `model:provider` items joined by commas. */
  function Format(models: seq<(string, string)>): string {
    Join(seq(|models|, i requires 0 <= i < |models| => models[i].0 + ":" + models[i].1), ',')
  }

  /** Writing a pair as `model:provider` and parsing it gives the pair back. */
  lemma ItemRoundTrip(pair: (string, string))
    requires Writable(pair)
    ensures ParseItem(pair.0 + ":" + pair.1) == pair
  {
    var item := pair.0 + ":" + pair.1;
    assert Strip(item) == item by {
      ColonJoinTrimmed(pair.0, pair.1);
      StripTrimmed(item);
    }
    assert LastIndex(item, ':') == Some(|pair.0|) by {
      LastIndexAt(pair.0, ':', pair.1);
    }
    assert item[..|pair.0|] == pair.0;
    assert item[|pair.0| + 1..] == pair.1;
    StripTrimmed(pair.0);
    StripTrimmed(pair.1);
  }

  lemma ColonJoinTrimmed(a: string, b: string)
    requires Trimmed(a) && Trimmed(b)
    ensures Trimmed(a + ":" + b)
  {
  }

  /** `parse_models` reads back every non-empty list of writable pairs, in order. */
  lemma ModelsRoundTrip(models: seq<(string, string)>)
    requires models != [] && forall i :: 0 <= i < |models| ==> Writable(models[i])
    ensures ParseItems(Split(Format(models), ',')) == models
  {
    var items := seq(|models|, i requires 0 <= i < |models| => models[i].0 + ":" + models[i].1);
    forall i | 0 <= i < |items| ensures ',' !in items[i] {
      assert items[i] == models[i].0 + ":" + models[i].1;
    }
    SplitJoin(items, ',');
    forall i | 0 <= i < |models| ensures ParseItem(items[i]) == models[i] {
      ItemRoundTrip(models[i]);
    }
  }

  // ----- the `run` sub-command -----

  datatype RunArgs = RunArgs(
    numGames: int,
    playerCount: int,
    models: string,
    noRotate: bool,
    parallel: int,
    tag: Option<string>)

  /** `cmd_run` up to starting the runner: an empty `--models` is refused. */
  function RunConfig(args: RunArgs): (r: Result<Runner.BatchConfig, string>)
    ensures r.Err? <==> args.models == ""
    ensures r.Ok? ==> && r.value.models == ParseItems(Split(args.models, ','))
                      && r.value.rotateModels == !args.noRotate
                      && r.value.numGames == args.numGames
                      && r.value.playerCount == args.playerCount
                      && r.value.parallel == args.parallel
                      && r.value.batchTag == args.tag
  {
    var models := if args.models == "" then [] else ParseItems(Split(args.models, ','));
    if models == [] then Err("Error: --models is required")
    else Ok(Runner.BatchConfig(args.numGames, args.playerCount, models, !args.noRotate, args.parallel, args.tag))
  }
}
