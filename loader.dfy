/**
  `loadProjectConfig`: read and parse the configuration file, validate it
  against the schema, insist on a `prod` account, and hand back the parsed
  document. Reading and parsing are outside the model: their outcome is the
  input. Each fatal exit (a red message on standard error, then exit status
  1) is a returned error value.
 */
module Loader {
  import opened JsonValue
  import opened Schema
  import opened ProjectConfig

  /** What `JSON.parse(fs.readFileSync(path, "utf-8"))` produced. */
  datatype ParseOutcome =
    | Unreadable        // readFileSync threw: the file is missing or unreadable
    | Unparsable        // JSON.parse threw: the text is not JSON
    | Parsed(doc: Json)

  /** The three fatal conditions, in the order they are tested. */
  datatype LoadError = MissingFile | Malformed | MissingProd

  datatype LoadResult = Loaded(config: Json) | Fatal(error: LoadError)

  /** `prod` is one of the stages in `accounts`. */
  predicate HasProdAccount(doc: Json)
  {
    && doc.Object?
    && "accounts" in doc.fields
    && doc.fields["accounts"].Object?
    && StageKey(Prod) in doc.fields["accounts"].fields
  }

  /** The decision sequence: a read or parse failure first, then the schema,
      then a truthy `accounts.prod`. The value returned is the parsed
      document itself, not the schema's (key-stripped) output. */
  function Load(input: ParseOutcome): (r: LoadResult)
    ensures r.Loaded? ==> input == Parsed(r.config)
    ensures r.Loaded? ==> ValidConfig(r.config) && HasProdAccount(r.config)
  {
    match input
    case Unreadable => Fatal(MissingFile)
    case Unparsable => Fatal(MissingFile)
    case Parsed(doc) =>
      if !Accepts(ConfigSchema, Some(doc)) then Fatal(Malformed)
      else
        ConfigSchemaMeaning(doc);
        var accounts := doc.fields["accounts"].fields;
        if !Truthy(Get(accounts, StageKey(Prod))) then Fatal(MissingProd)
        else Loaded(doc)
  }

  /** The process exit status: `0` when loading returns, `1` on every fatal
      error. */
  function ExitStatus(r: LoadResult): (status: nat)
    ensures status == 0 <==> r.Loaded?
    ensures status <= 1
  {
    match r
    case Loaded(_) => 0
    case Fatal(_) => 1
  }

  /** The outcome of loading, stated with the schema's direct meaning and
      `"prod" in accounts` in place of JavaScript truthiness. */
  lemma LoadDecision(input: ParseOutcome)
    ensures !input.Parsed? ==> Load(input) == Fatal(MissingFile)
    ensures input.Parsed? && !ValidConfig(input.doc) ==> Load(input) == Fatal(Malformed)
    ensures input.Parsed? && ValidConfig(input.doc) && !HasProdAccount(input.doc) ==>
      Load(input) == Fatal(MissingProd)
    ensures input.Parsed? && ValidConfig(input.doc) && HasProdAccount(input.doc) ==>
      Load(input) == Loaded(input.doc)
  {
    if input.Parsed? {
      var doc := input.doc;
      ConfigSchemaMeaning(doc);
    }
  }

  /** Loading a parsed document succeeds exactly for a valid configuration
      with a `prod` account, and then yields that very document. */
  lemma LoadSucceedsIff(doc: Json)
    ensures Load(Parsed(doc)).Loaded? <==> ValidConfig(doc) && HasProdAccount(doc)
    ensures Load(Parsed(doc)).Loaded? ==> Load(Parsed(doc)).config == doc
  {
    LoadDecision(Parsed(doc));
  }

  /** A schema failure is reported as such even when `prod` is missing too. */
  lemma MalformedBeforeMissingProd(doc: Json)
    requires !ValidConfig(doc)
    requires !HasProdAccount(doc)
    ensures Load(Parsed(doc)) == Fatal(Malformed)
  {
    LoadDecision(Parsed(doc));
  }

  /** A missing or non-boolean `codePipeline`, or a document that is not an
      object at all, is malformed whatever else it holds. */
  lemma DiscriminatorRequired(doc: Json)
    requires !doc.Object? || !IsBool(Get(doc.fields, "codePipeline"))
    ensures Load(Parsed(doc)) == Fatal(Malformed)
  {
    LoadDecision(Parsed(doc));
  }

  /** With a pipeline, both GitLab names are required and length-bounded. */
  lemma PipelineRequiresGitlabNames(doc: Json)
    requires doc.Object? && Get(doc.fields, "codePipeline") == Some(Bool(true))
    requires !ValidGitlabName(Get(doc.fields, "gitlabGroup")) ||
             !ValidGitlabName(Get(doc.fields, "gitlabProject"))
    ensures Load(Parsed(doc)) == Fatal(Malformed)
  {
    LoadDecision(Parsed(doc));
  }

  /** Without a pipeline, the GitLab names may be left out entirely. */
  lemma NoPipelineGitlabNamesOptional(doc: Json)
    requires doc.Object? && Get(doc.fields, "codePipeline") == Some(Bool(false))
    requires "gitlabGroup" !in doc.fields && "gitlabProject" !in doc.fields
    requires ValidBase(doc.fields) && HasProdAccount(doc)
    ensures Load(Parsed(doc)) == Loaded(doc)
  {
    LoadDecision(Parsed(doc));
  }

  /** Without a pipeline, a GitLab name that is present must still be a
      string of 5 to 75 characters. */
  lemma NoPipelineGitlabNamesStillBounded(doc: Json)
    requires doc.Object? && Get(doc.fields, "codePipeline") == Some(Bool(false))
    requires || ("gitlabGroup" in doc.fields && !ValidGitlabName(Get(doc.fields, "gitlabGroup")))
             || ("gitlabProject" in doc.fields && !ValidGitlabName(Get(doc.fields, "gitlabProject")))
    ensures Load(Parsed(doc)) == Fatal(Malformed)
  {
    LoadDecision(Parsed(doc));
  }

  /** Adding a well-formed account under a stage other than `prod` changes
      no outcome: such stages neither stand in for `prod` nor break a
      configuration (and removing one, read backwards, does not either). */
  lemma OtherStagesIrrelevant(doc: Json, stage: string, account: Json)
    requires doc.Object? && "accounts" in doc.fields && doc.fields["accounts"].Object?
    requires stage != StageKey(Prod) && stage !in doc.fields["accounts"].fields
    requires ValidAccount(account)
    ensures
      var accounts := doc.fields["accounts"].fields;
      var doc' := Json.Object(doc.fields["accounts" := Json.Object(accounts[stage := account])]);
      && (Load(Parsed(doc')).Loaded? <==> Load(Parsed(doc)).Loaded?)
      && (Load(Parsed(doc)).Fatal? ==> Load(Parsed(doc')) == Load(Parsed(doc)))
  {
    var accounts := doc.fields["accounts"].fields;
    var doc' := Json.Object(doc.fields["accounts" := Json.Object(accounts[stage := account])]);
    LoadDecision(Parsed(doc));
    LoadDecision(Parsed(doc'));
    var before, after := Get(doc.fields, "accounts"), Get(doc'.fields, "accounts");
    assert ValidAccounts(after) <==> ValidAccounts(before) by {
      if ValidAccounts(before) {
        forall k | k in after.value.fields ensures ValidAccount(after.value.fields[k]) {
          if k != stage { assert after.value.fields[k] == before.value.fields[k]; }
        }
      }
      if ValidAccounts(after) {
        forall k | k in before.value.fields ensures ValidAccount(before.value.fields[k]) {
          assert k != stage;
          assert before.value.fields[k] == after.value.fields[k];
        }
      }
    }
    assert ValidBase(doc'.fields) <==> ValidBase(doc.fields);
    assert ValidVariant(doc'.fields) <==> ValidVariant(doc.fields);
    assert HasProdAccount(doc') <==> HasProdAccount(doc);
  }

  /** Keys the schema does not name are tolerated, and kept: on success the
      document comes back with them. */
  lemma UnknownKeysTolerated(doc: Json, key: string, x: Json)
    requires doc.Object? && key !in KnownKeys
    ensures
      var doc' := Json.Object(doc.fields[key := x]);
      && (Load(Parsed(doc')).Loaded? <==> Load(Parsed(doc)).Loaded?)
      && (Load(Parsed(doc)).Fatal? ==> Load(Parsed(doc')) == Load(Parsed(doc)))
      && (Load(Parsed(doc')).Loaded? ==> key in Load(Parsed(doc')).config.fields)
  {
    var doc' := Json.Object(doc.fields[key := x]);
    LoadDecision(Parsed(doc));
    LoadDecision(Parsed(doc'));
    forall k | k in KnownKeys ensures Get(doc'.fields, k) == Get(doc.fields, k) {
    }
    assert ValidConfig(doc') <==> ValidConfig(doc);
    assert HasProdAccount(doc') <==> HasProdAccount(doc);
  }
}
