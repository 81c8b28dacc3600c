/**
  Concrete identifiers and documents and what the validator makes of them.
 */
module Scenarios {
  import opened JsonValue
  import opened Schema
  import opened ProjectConfig
  import opened Loader

  predicate AlphaOrHyphen(c: char)
  {
    ('a' <= c <= 'z') || ('A' <= c <= 'Z') || c == '-'
  }

  predicate AlnumOrHyphen(c: char)
  {
    AlphaOrHyphen(c) || ('0' <= c <= '9')
  }

  /** Every identifier of 5 to 15 ASCII letters, digits and hyphens is
      accepted: the form the error message asks for, and digits besides. */
  lemma AlnumAndHyphenAccepted(id: string)
    requires ProjectIdMin <= |id| <= ProjectIdMax
    requires forall i :: 0 <= i < |id| ==> AlnumOrHyphen(id[i])
    ensures Accepts(ProjectIdSchema, Some(String(id)))
  {
    ProjectIdSchemaMeaning(Some(String(id)));
    forall i | 0 <= i < |id| ensures id[i] !in ForbiddenChars {
      assert AlnumOrHyphen(id[i]);
    }
  }

  /** The check is a blacklist: digits pass, although the error message
      asks for letters and `-` only. */
  lemma DigitAccepted()
    ensures Accepts(ProjectIdSchema, Some(String("proj1"))) && !AlphaOrHyphen("proj1"[4])
  {
    var id := "proj1";
    forall i | 0 <= i < |id| ensures id[i] !in ForbiddenChars {
      assert id[i] in {'p', 'r', 'o', 'j', '1'};
    }
    ProjectIdSchemaMeaning(Some(String(id)));
  }

  /** A tab is outside the blacklisted class, so it passes. */
  lemma TabAccepted()
    ensures Accepts(ProjectIdSchema, Some(String("ab\tcd"))) && !AlphaOrHyphen("ab\tcd"[2])
  {
    var id := "ab\tcd";
    forall i | 0 <= i < |id| ensures id[i] !in ForbiddenChars {
      assert id[i] in {'a', 'b', '\t', 'c', 'd'};
    }
    ProjectIdSchemaMeaning(Some(String(id)));
  }

  /** So is a letter outside ASCII. */
  lemma NonAsciiLetterAccepted()
    ensures Accepts(ProjectIdSchema, Some(String("h\U{e9}llo"))) && !AlphaOrHyphen("h\U{e9}llo"[1])
  {
    var id := "h\U{e9}llo";
    forall i | 0 <= i < |id| ensures id[i] !in ForbiddenChars {
      assert id[i] in {'h', '\U{e9}', 'l', 'o'};
    }
    ProjectIdSchemaMeaning(Some(String(id)));
  }

  /** Identifiers the rule turns away for a forbidden character. */
  lemma ForbiddenCharRejected()
    ensures !Accepts(ProjectIdSchema, Some(String("my@project")))
    ensures !Accepts(ProjectIdSchema, Some(String("my_project")))
  {
    ProjectIdSchemaMeaning(Some(String("my@project")));
    assert "my@project"[2] == '@';
    ProjectIdSchemaMeaning(Some(String("my_project")));
    assert "my_project"[2] == '_';
  }

  /** Identifiers the rule turns away for their length. */
  lemma LengthBoundsRejected()
    ensures !Accepts(ProjectIdSchema, Some(String("abcd")))
    ensures !Accepts(ProjectIdSchema, Some(String("abcdefghijklmnop")))
  {
    ProjectIdSchemaMeaning(Some(String("abcd")));
    ProjectIdSchemaMeaning(Some(String("abcdefghijklmnop")));
  }

  const ProdAccount: Json :=
    Json.Object(map["number" := String("123456789012"), "region" := String("us-east-1")])

  function Document(id: string, pipeline: bool, accounts: map<string, Json>): Json
  {
    Json.Object(map[
      "projectId" := String(id),
      "codeArtifact" := Bool(false),
      "midway" := Bool(false),
      "codePipeline" := Bool(pipeline),
      "accounts" := Json.Object(accounts)
    ])
  }

  lemma ProdAccountValid()
    ensures ValidAccount(ProdAccount)
  {
    assert |"123456789012"| == AccountNumberLength;
  }

  lemma SampleIdValid()
    ensures ValidProjectId("my-project")
  {
    var id := "my-project";
    forall i | 0 <= i < |id| ensures id[i] !in ForbiddenChars {
      assert id[i] in {'m', 'y', '-', 'p', 'r', 'o', 'j', 'e', 'c', 't'};
    }
  }

  /** What `Document` builds: a base that is valid when its parts are, the
      requested discriminator, and no GitLab names. */
  lemma DocumentShape(id: string, pipeline: bool, accounts: map<string, Json>)
    requires ValidProjectId(id)
    requires forall stage :: stage in accounts ==> ValidAccount(accounts[stage])
    ensures var doc := Document(id, pipeline, accounts);
      && ValidBase(doc.fields)
      && Get(doc.fields, "codePipeline") == Some(Bool(pipeline))
      && "gitlabGroup" !in doc.fields && "gitlabProject" !in doc.fields
      && (HasProdAccount(doc) <==> StageKey(Prod) in accounts)
  {
    var f := Document(id, pipeline, accounts).fields;
    assert Get(f, "projectId") == Some(String(id));
    assert Get(f, "accounts") == Some(Json.Object(accounts));
  }

  /** A minimal valid document without a pipeline loads, unchanged. */
  lemma MinimalDocumentLoads()
    ensures Load(Parsed(Document("my-project", false, map["prod" := ProdAccount]))) ==
      Loaded(Document("my-project", false, map["prod" := ProdAccount]))
  {
    ProdAccountValid();
    SampleIdValid();
    DocumentShape("my-project", false, map["prod" := ProdAccount]);
    NoPipelineGitlabNamesOptional(Document("my-project", false, map["prod" := ProdAccount]));
  }

  /** The same document with only a `dev` account lacks `prod`. */
  lemma DevOnlyIsMissingProd()
    ensures Load(Parsed(Document("my-project", false, map["dev" := ProdAccount]))) == Fatal(MissingProd)
  {
    var doc := Document("my-project", false, map["dev" := ProdAccount]);
    ProdAccountValid();
    SampleIdValid();
    DocumentShape("my-project", false, map["dev" := ProdAccount]);
    LoadDecision(Parsed(doc));
  }

  /** A pipeline document without GitLab names is malformed. */
  lemma PipelineWithoutGitlabIsMalformed()
    ensures Load(Parsed(Document("my-project", true, map["prod" := ProdAccount]))) == Fatal(Malformed)
  {
    var doc := Document("my-project", true, map["prod" := ProdAccount]);
    PipelineRequiresGitlabNames(doc);
  }

  /** A forbidden character in `projectId` makes the document malformed,
      and that is what is reported even without a `prod` account. */
  lemma BadProjectIdIsMalformed()
    ensures Load(Parsed(Document("my@project", false, map["dev" := ProdAccount]))) == Fatal(Malformed)
  {
    var doc := Document("my@project", false, map["dev" := ProdAccount]);
    ForbiddenCharRejected();
    ProjectIdSchemaMeaning(Some(String("my@project")));
    LoadDecision(Parsed(doc));
  }

  /** `codeArtifact` and `midway` are not optional: a document that leaves
      them out is malformed even with a valid `prod` account. */
  lemma BooleansRequired()
    ensures
      var doc := Json.Object(map[
        "projectId" := String("my-project"),
        "codePipeline" := Bool(false),
        "accounts" := Json.Object(map["prod" := ProdAccount])
      ]);
      Load(Parsed(doc)) == Fatal(Malformed)
  {
    var doc := Json.Object(map[
      "projectId" := String("my-project"),
      "codePipeline" := Bool(false),
      "accounts" := Json.Object(map["prod" := ProdAccount])
    ]);
    assert !IsBool(Get(doc.fields, "codeArtifact"));
    LoadDecision(Parsed(doc));
  }
}
