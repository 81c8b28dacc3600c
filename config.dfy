/**
  The project-configuration rules: the preset stage names, the schema the
  parsed document must satisfy (a discriminated union on `codePipeline`
  over a shared base shape), and a direct statement of what that schema
  demands, proved equivalent to it.
 */
module ProjectConfig {
  import opened JsonValue
  import opened Schema

  /** The stage names the deployment knows by default. */
  datatype PresetStageType = Dev | Prod

  /** The key a stage has in `accounts`: `Dev` is `"dev"`, `Prod` is
      `"prod"`, and no two stages share a key. */
  function StageKey(stage: PresetStageType): (key: string)
    ensures stage == Dev <==> key == "dev"
    ensures stage == Prod <==> key == "prod"
  {
    match stage
    case Dev => "dev"
    case Prod => "prod"
  }

  const ProjectIdMin: nat := 5
  const ProjectIdMax: nat := 15
  const AccountNumberLength: nat := 12
  const GitlabMin: nat := 5
  const GitlabMax: nat := 75

  /** The characters of the regular-expression class that `projectId` must
      not match: space and `` ` ! @ # $ % ^ & * ( ) _ + = \ [ ] { } ; ' : " | , . < > / ? ~``.
      It is a blacklist: letters of any script, digits, `-` and control
      characters such as tab are all outside it. */
  const ForbiddenChars: set<char> := {
    ' ', '`', '!', '@', '#', '$', '%', '^', '&', '*', '(', ')', '_', '+', '=',
    '\\', '[', ']', '{', '}', ';', '\'', ':', '"', '|', ',', '.', '<', '>',
    '/', '?', '~'
  }

  /** `regex.test(s)` for the single-character class above: does some
      character of `s` lie in it? */
  function ForbiddenClassTest(s: string): (found: bool)
    ensures found <==> exists i :: 0 <= i < |s| && s[i] in ForbiddenChars
  {
    if s == [] then false
    else s[0] in ForbiddenChars || ForbiddenClassTest(s[1..])
  }

  // The schema, written as the source assembles it.

  const ProjectIdSchema: Schema :=
    Str([MinLength(ProjectIdMin), MaxLength(ProjectIdMax),
         Refine(s => !ForbiddenClassTest(s))])

  const AccountSchema: Schema :=
    ObjectOf([
      Field("number", Str([ExactLength(AccountNumberLength)])),
      Field("region", Str([])),
      Field("midwaySecretId", Optional(Str([])))
    ])

  const AccountsSchema: Schema := Record(Str([]), AccountSchema)

  const BaseShape: seq<Field> := [
    Field("projectId", ProjectIdSchema),
    Field("codeArtifact", Boolean),
    Field("midway", Boolean),
    Field("accounts", AccountsSchema)
  ]

  const GitlabLength: Schema := Str([MinLength(GitlabMin), MaxLength(GitlabMax)])

  const PipelineTail: seq<Field> := [
    Field("codePipeline", Literal(true)),
    Field("gitlabGroup", GitlabLength),
    Field("gitlabProject", GitlabLength)
  ]

  const NoPipelineTail: seq<Field> := [
    Field("codePipeline", Literal(false)),
    Field("gitlabGroup", Optional(GitlabLength)),
    Field("gitlabProject", Optional(GitlabLength))
  ]

  /** `{...baseSchema, codePipeline, gitlabGroup, gitlabProject}`: a JS spread
      keeps the last entry of a repeated key, while `AcceptsFields` checks
      every entry, so concatenation models the spread because no key repeats
      (`SpreadKeysDistinct`). */
  const WithPipeline: Schema := ObjectOf(BaseShape + PipelineTail)
  const WithoutPipeline: Schema := ObjectOf(BaseShape + NoPipelineTail)

  const ConfigSchema: Schema := DiscriminatedUnion("codePipeline", [WithPipeline, WithoutPipeline])

  /** Every key some option of the schema names; any other key of the
      document is ignored. */
  const KnownKeys: set<string> := {
    "projectId", "codeArtifact", "midway", "accounts",
    "codePipeline", "gitlabGroup", "gitlabProject"
  }

  predicate KeysDistinct(shape: seq<Field>)
  {
    forall i, j :: 0 <= i < j < |shape| ==> shape[i].key != shape[j].key
  }

  /** No key occurs twice in either option, so the base shape and the tails
      share no key and each spread is a plain concatenation. */
  lemma SpreadKeysDistinct()
    ensures KeysDistinct(BaseShape + PipelineTail)
    ensures KeysDistinct(BaseShape + NoPipelineTail)
  {
  }

  // What the schema demands, stated directly.

  predicate ValidProjectId(id: string)
  {
    && ProjectIdMin <= |id| <= ProjectIdMax
    && forall i :: 0 <= i < |id| ==> id[i] !in ForbiddenChars
  }

  predicate IsString(v: Option<Json>)
  {
    v.Some? && v.value.String?
  }

  predicate IsBool(v: Option<Json>)
  {
    v.Some? && v.value.Bool?
  }

  predicate ValidAccount(a: Json)
  {
    && a.Object?
    && IsString(Get(a.fields, "number")) && |Get(a.fields, "number").value.s| == AccountNumberLength
    && IsString(Get(a.fields, "region"))
    && (Get(a.fields, "midwaySecretId").None? || IsString(Get(a.fields, "midwaySecretId")))
  }

  predicate ValidAccounts(v: Option<Json>)
  {
    v.Some? && v.value.Object? &&
    forall stage :: stage in v.value.fields ==> ValidAccount(v.value.fields[stage])
  }

  predicate ValidGitlabName(v: Option<Json>)
  {
    IsString(v) && GitlabMin <= |v.value.s| <= GitlabMax
  }

  /** The fields every configuration has, whatever `codePipeline` says. */
  predicate ValidBase(fields: map<string, Json>)
  {
    && IsString(Get(fields, "projectId")) && ValidProjectId(Get(fields, "projectId").value.s)
    && IsBool(Get(fields, "codeArtifact"))
    && IsBool(Get(fields, "midway"))
    && ValidAccounts(Get(fields, "accounts"))
  }

  /** The pipeline variant: `codePipeline` is the literal `true` and both
      GitLab names are present, or it is `false` and each GitLab name is
      absent or well formed. Anything else selects no variant. */
  predicate ValidVariant(fields: map<string, Json>)
  {
    match Get(fields, "codePipeline")
    case Some(Bool(true)) =>
      ValidGitlabName(Get(fields, "gitlabGroup")) && ValidGitlabName(Get(fields, "gitlabProject"))
    case Some(Bool(false)) =>
      && (Get(fields, "gitlabGroup").None? || ValidGitlabName(Get(fields, "gitlabGroup")))
      && (Get(fields, "gitlabProject").None? || ValidGitlabName(Get(fields, "gitlabProject")))
    case _ => false
  }

  predicate ValidConfig(doc: Json)
  {
    doc.Object? && ValidBase(doc.fields) && ValidVariant(doc.fields)
  }

  // The schema means what the predicates say.

  lemma ProjectIdSchemaMeaning(v: Option<Json>)
    ensures Accepts(ProjectIdSchema, v) <==> IsString(v) && ValidProjectId(v.value.s)
  {
    if IsString(v) {
      var s := v.value.s;
      assert ChecksHold(ProjectIdSchema.checks, s) <==>
        ProjectIdMin <= |s| <= ProjectIdMax && !ForbiddenClassTest(s) by {
        assert CheckHolds(ProjectIdSchema.checks[2], s) <==> !ForbiddenClassTest(s);
      }
    }
  }

  lemma AccountSchemaMeaning(a: Json)
    ensures Accepts(AccountSchema, Some(a)) <==> ValidAccount(a)
  {
    if a.Object? {
      var shape, f := AccountSchema.shape, a.fields;
      assert shape[1..][1..][1..] == [];
      assert AcceptsFields(shape[1..][1..], f) <==> Accepts(shape[2].schema, Get(f, "midwaySecretId"));
      assert AcceptsFields(shape[1..], f) <==>
        Accepts(shape[1].schema, Get(f, "region")) && AcceptsFields(shape[1..][1..], f);
      assert AcceptsFields(shape, f) <==>
        Accepts(shape[0].schema, Get(f, "number")) && AcceptsFields(shape[1..], f);
      if IsString(Get(f, "number")) {
        var n := Get(f, "number").value.s;
        assert CheckHolds(ExactLength(AccountNumberLength), n) <==> |n| == AccountNumberLength;
      }
    }
  }

  lemma AccountsSchemaMeaning(v: Option<Json>)
    ensures Accepts(AccountsSchema, v) <==> ValidAccounts(v)
  {
    if v.Some? && v.value.Object? {
      var m := v.value.fields;
      forall stage | stage in m
        ensures Accepts(AccountSchema, Some(m[stage])) <==> ValidAccount(m[stage])
      {
        AccountSchemaMeaning(m[stage]);
      }
    }
  }

  lemma GitlabLengthMeaning(v: Option<Json>)
    ensures Accepts(GitlabLength, v) <==> ValidGitlabName(v)
  {
    if IsString(v) {
      assert CheckHolds(GitlabLength.checks[0], v.value.s) <==> |v.value.s| >= GitlabMin;
      assert CheckHolds(GitlabLength.checks[1], v.value.s) <==> |v.value.s| <= GitlabMax;
    }
  }

  lemma BaseShapeMeaning(fields: map<string, Json>)
    ensures AcceptsFields(BaseShape, fields) <==> ValidBase(fields)
  {
    var shape, f := BaseShape, fields;
    ProjectIdSchemaMeaning(Get(f, "projectId"));
    AccountsSchemaMeaning(Get(f, "accounts"));
    assert shape[1..][1..][1..][1..] == [];
    assert AcceptsFields(shape[1..][1..][1..], f) <==> Accepts(AccountsSchema, Get(f, "accounts"));
    assert AcceptsFields(shape[1..][1..], f) <==>
      Accepts(Boolean, Get(f, "midway")) && AcceptsFields(shape[1..][1..][1..], f);
    assert AcceptsFields(shape[1..], f) <==>
      Accepts(Boolean, Get(f, "codeArtifact")) && AcceptsFields(shape[1..][1..], f);
    assert AcceptsFields(shape, f) <==>
      Accepts(ProjectIdSchema, Get(f, "projectId")) && AcceptsFields(shape[1..], f);
  }

  lemma TailMeaning(fields: map<string, Json>)
    ensures AcceptsFields(PipelineTail, fields) <==>
      && Get(fields, "codePipeline") == Some(Bool(true))
      && ValidGitlabName(Get(fields, "gitlabGroup")) && ValidGitlabName(Get(fields, "gitlabProject"))
    ensures AcceptsFields(NoPipelineTail, fields) <==>
      && Get(fields, "codePipeline") == Some(Bool(false))
      && (Get(fields, "gitlabGroup").None? || ValidGitlabName(Get(fields, "gitlabGroup")))
      && (Get(fields, "gitlabProject").None? || ValidGitlabName(Get(fields, "gitlabProject")))
  {
    var group, project := Get(fields, "gitlabGroup"), Get(fields, "gitlabProject");
    GitlabLengthMeaning(group);
    GitlabLengthMeaning(project);
    var p, q := PipelineTail, NoPipelineTail;
    assert p[1..][1..][1..] == [] && q[1..][1..][1..] == [];
    assert AcceptsFields(p[1..][1..], fields) <==> Accepts(GitlabLength, project);
    assert AcceptsFields(p[1..], fields) <==>
      Accepts(GitlabLength, group) && AcceptsFields(p[1..][1..], fields);
    assert AcceptsFields(q[1..][1..], fields) <==> Accepts(Optional(GitlabLength), project);
    assert AcceptsFields(q[1..], fields) <==>
      Accepts(Optional(GitlabLength), group) && AcceptsFields(q[1..][1..], fields);
  }

  /** Each option of the union carries its own literal for `codePipeline`. */
  lemma OptionTags()
    ensures Tag(WithPipeline, "codePipeline") == Some(true)
    ensures Tag(WithoutPipeline, "codePipeline") == Some(false)
  {
    FieldTagAppend(BaseShape, PipelineTail, "codePipeline");
    FieldTagAppend(BaseShape, NoPipelineTail, "codePipeline");
  }

  /** The configuration schema accepts exactly the valid configurations. */
  lemma ConfigSchemaMeaning(doc: Json)
    ensures Accepts(ConfigSchema, Some(doc)) <==> ValidConfig(doc)
  {
    if doc.Object? {
      var f := doc.fields;
      OptionTags();
      BaseShapeMeaning(f);
      TailMeaning(f);
      AcceptsFieldsAppend(BaseShape, PipelineTail, f);
      AcceptsFieldsAppend(BaseShape, NoPipelineTail, f);
      var d := Get(f, "codePipeline");
      var sel := SelectOption(ConfigSchema.options, "codePipeline", d);
      if d == Some(Bool(true)) {
        assert sel == Some(0);
      } else if d == Some(Bool(false)) {
        assert !Selects(WithPipeline, "codePipeline", d);
        assert ConfigSchema.options[1..] == [WithoutPipeline];
        assert SelectOption([WithoutPipeline], "codePipeline", d) == Some(0);
        assert sel == Some(1);
      } else {
        assert sel == None;
      }
    }
  }
}
