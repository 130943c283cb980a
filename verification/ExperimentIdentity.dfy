/** The identity document of one research attempt: six sections of portable
    names and the digest of all of them.  The digest function is a parameter. */
module ExperimentIdentity {
  import opened Exact
  import opened Characters
  import opened BatchRecords

  datatype Field = Text(text: string) | Number(number: int) | Null | Other
  type Section = map<string, Field>

  datatype Body = Body(engine: Section, code: Section, configuration: Section, data: Section, cost: Section, trial: Section)

  /** `names` are the field names the document was read with. */
  datatype Document = Document(names: set<string>, version: int, body: Body, sha: string)

  const DOCUMENT_FIELDS := {"schema_version", "engine", "code", "configuration", "data", "cost", "trial", "identity_sha256"}
  const ENGINE_FIELDS := {"name", "version", "source_revision"}
  const CODE_FIELDS := {"repository", "revision"}
  const CONFIGURATION_FIELDS := {"id", "sha256"}
  const DATA_FIELDS := {"source_id", "revision", "sha256", "kind", "rights_reference"}
  const COST_FIELDS := {"model_id", "revision", "sha256"}
  const TRIAL_FIELDS := {"strategy_id", "strategy_version", "trial_id", "sequence", "origin", "parent_trial_id"}

  predicate NameOk(key: string, value: Field)
  {
    value.Text? && IsToken(value.text) && (key == "sha256" ==> IsDigest(value.text))
  }

  predicate SectionOk(s: Section, fields: set<string>)
  {
    s.Keys == fields && forall key <- s :: NameOk(key, s[key])
  }

  /** The trial section also holds a positive number and may leave out its parent. */
  predicate TrialOk(s: Section)
  {
    && s.Keys == TRIAL_FIELDS
    && (forall key <- s ::
          if key == "sequence" then s[key].Number? && s[key].number >= 1
          else (key == "parent_trial_id" && s[key] == Null) || NameOk(key, s[key]))
    && s["origin"] in [Text("human"), Text("model"), Text("published")]
  }

  predicate BodyOk(b: Body)
  {
    && SectionOk(b.engine, ENGINE_FIELDS) && SectionOk(b.code, CODE_FIELDS) && SectionOk(b.configuration, CONFIGURATION_FIELDS)
    && SectionOk(b.data, DATA_FIELDS) && b.data["kind"] in [Text("synthetic"), Text("third_party")]
    && SectionOk(b.cost, COST_FIELDS) && TrialOk(b.trial)
  }

  /** Build the document of six sections; `None` is a refusal. */
  function Build(b: Body, digest: Body -> string): Option<Document>
  {
    if BodyOk(b) then Some(Document(DOCUMENT_FIELDS, 1, b, digest(b))) else None
  }

  function TextOf(s: Section, key: string): string { if key in s && s[key].Text? then s[key].text else "" }

  /** Build a document again from its sections and compare; `None` is a refusal. */
  function Checked(d: Document, digest: Body -> string): Option<Identity>
  {
    if d.names != DOCUMENT_FIELDS || Build(d.body, digest) != Some(d) then None
    else Some(Identity(d.sha, TextOf(d.body.trial, "strategy_id"), TextOf(d.body.trial, "strategy_version")))
  }

  ghost predicate CollisionFree(digest: Body -> string) { forall a, b :: digest(a) == digest(b) ==> a == b }

  /** The check accepts exactly the documents that the builder returns, names of
      strategy and version are portable tokens, and a digest stands for one document. */
  lemma CheckedExactly(d: Document, digest: Body -> string)
    ensures Checked(d, digest).Some? <==> exists b :: Build(b, digest) == Some(d)
    ensures Checked(d, digest).Some? ==> IsToken(Checked(d, digest).value.strategy) && IsToken(Checked(d, digest).value.version)
    ensures forall e: Document ::
      CollisionFree(digest) && Checked(d, digest).Some? && Checked(e, digest).Some? && Checked(d, digest).value.sha == Checked(e, digest).value.sha
      ==> d == e
  {
    hide IsToken, IsDigest, SectionOk;
    if Build(d.body, digest) == Some(d) {
      assert "strategy_id" in d.body.trial.Keys && "strategy_version" in d.body.trial.Keys;
    }
  }

  // ----- names and digests, letter by letter

  /** A portable name starts with a letter or digit and goes on with those and
      four signs; a digest is sixty-four hexadecimal digits. */
  lemma NamesSpelledOut(s: string)
    ensures IsToken(s) <==>
      && |s| > 0 && (s[0] in UPPER || s[0] in LOWER || s[0] in DECIMAL)
      && forall i :: 1 <= i < |s| ==> s[i] in UPPER || s[i] in LOWER || s[i] in DECIMAL || s[i] in ['.', '_', ':', '-']
    ensures IsDigest(s) <==> |s| == 64 && forall i :: 0 <= i < |s| ==> s[i] in DECIMAL || s[i] in "abcdef"
  {
    forall i | 0 <= i < |s|
      ensures s[i] in UPPER <==> 'A' <= s[i] <= 'Z'
      ensures s[i] in LOWER <==> 'a' <= s[i] <= 'z'
      ensures s[i] in DECIMAL <==> '0' <= s[i] <= '9'
      ensures s[i] in "abcdef" <==> 'a' <= s[i] <= 'f'
    {
      UpperAre(s[i]);
      LowerAre(s[i]);
      DecimalAre(s[i]);
    }
  }

  // ----- the program's checks

  /** The section check: exactly these fields, each a portable name, a digest
      where one is asked for, and in the trial section a sequence and a parent. */
  method CheckSection(s: Section, fields: set<string>, trial: bool) returns (ok: bool)
    ensures ok <==> s.Keys == fields && forall key <- s ::
      if trial && key == "sequence" then s[key].Number? && s[key].number >= 1
      else (trial && key == "parent_trial_id" && s[key] == Null) || NameOk(key, s[key])
  {
    hide IsToken, IsDigest;
    if s.Keys != fields {
      return false;
    }
    var keys := s.Keys;
    while keys != {}
      invariant keys <= s.Keys
      invariant forall key <- s :: key !in keys ==>
        if trial && key == "sequence" then s[key].Number? && s[key].number >= 1
        else (trial && key == "parent_trial_id" && s[key] == Null) || NameOk(key, s[key])
      decreases |keys|
    {
      var key :| key in keys;
      var value := s[key];
      if trial && key == "sequence" {
        if !value.Number? || value.number < 1 {
          return false;
        }
      } else if !(trial && key == "parent_trial_id" && value == Null) {
        if !value.Text? || !IsToken(value.text) || (key == "sha256" && !IsDigest(value.text)) {
          return false;
        }
      }
      keys := keys - {key};
    }
    return true;
  }

  /** Build the identity document, section by section. */
  method BuildIdentity(b: Body, digest: Body -> string) returns (r: Option<Document>)
    ensures r == Build(b, digest)
  {
    hide NameOk;
    var engine := CheckSection(b.engine, {"name", "version", "source_revision"}, false);
    var code := CheckSection(b.code, {"repository", "revision"}, false);
    var configuration := CheckSection(b.configuration, {"id", "sha256"}, false);
    var data := CheckSection(b.data, {"source_id", "revision", "sha256", "kind", "rights_reference"}, false);
    var cost := CheckSection(b.cost, {"model_id", "revision", "sha256"}, false);
    var trial := CheckSection(b.trial, {"strategy_id", "strategy_version", "trial_id", "sequence", "origin", "parent_trial_id"}, true);
    if !engine || !code || !configuration || !data || !cost || !trial {
      return None;
    }
    if b.data["kind"] != Text("synthetic") && b.data["kind"] != Text("third_party") {
      return None;
    }
    if b.trial["origin"] != Text("human") && b.trial["origin"] != Text("model") && b.trial["origin"] != Text("published") {
      return None;
    }
    return Some(Document({"schema_version", "engine", "code", "configuration", "data", "cost", "trial", "identity_sha256"}, 1, b, digest(b)));
  }
}
