/** The docker client configuration file `~/.docker/config.json` and the
    `credHelpers` entry the AWS service-key path merges into it. */
module DockerConfig {
  import opened Common

  /** A JSON value, as far as the merge looks into it. `JOther` stands for
      numbers, booleans, null and arrays. */
  datatype Json = JString(s: string) | JObject(fields: map<string, Json>) | JOther

  /** The configuration file on disk: missing, a JSON document, or text that
      `json.load` rejects. */
  datatype DockerFile = Missing | Present(doc: Json) | Corrupt

  const DockerConfigPath: string := "~/.docker/config.json"
  const CredHelpersKey: string := "credHelpers"
  const EcrHelper: string := "ecr-login"

  /** The ECR registry host name of an account in a region. */
  function EcrRegistry(project: string, zone: string): string
  {
    project + ".dkr.ecr." + zone + ".amazonaws.com"
  }

  /** Reading the file: a missing file reads as the empty object. */
  function Load(f: DockerFile): (r: Result<Json>)
    ensures f.Missing? ==> r == Ok(JObject(map[]))
    ensures f.Present? ==> r == Ok(f.doc)
    ensures f.Corrupt? ==> r.Err?
  {
    match f
    case Missing => Ok(JObject(map[]))
    case Present(doc) => Ok(doc)
    case Corrupt => Err(Unparseable(DockerConfigPath))
  }

  /** The helper map a document already has, for the merge to extend. */
  function HelpersOf(doc: Json): map<string, Json>
  {
    if doc.JObject? && CredHelpersKey in doc.fields && doc.fields[CredHelpersKey].JObject?
    then doc.fields[CredHelpersKey].fields
    else map[]
  }

  /** `config.setdefault('credHelpers', {})[registry] = 'ecr-login'`. */
  function AddCredHelper(doc: Json, registry: string): (r: Result<Json>)
    ensures r.Ok? <==> doc.JObject? && (CredHelpersKey in doc.fields ==> doc.fields[CredHelpersKey].JObject?)
    ensures !doc.JObject? ==> r == Err(DockerConfigNotObject)
    ensures doc.JObject? && !r.Ok? ==> r == Err(CredHelpersNotMapping)
    ensures r.Ok? ==> r.value.JObject? && CredHelpersKey in r.value.fields
    ensures r.Ok? ==> r.value.fields - {CredHelpersKey} == doc.fields - {CredHelpersKey}
    ensures r.Ok? ==> r.value.fields[CredHelpersKey].JObject?
    ensures r.Ok? ==> HelpersOf(r.value) == HelpersOf(doc)[registry := JString(EcrHelper)]
  {
    if !doc.JObject? then Err(DockerConfigNotObject)
    else if CredHelpersKey !in doc.fields then
      Ok(JObject(doc.fields[CredHelpersKey := JObject(map[registry := JString(EcrHelper)])]))
    else
      match doc.fields[CredHelpersKey]
      case JObject(helpers) =>
        Ok(JObject(doc.fields[CredHelpersKey := JObject(helpers[registry := JString(EcrHelper)])]))
      case _ => Err(CredHelpersNotMapping)
  }

  /** The merge sets exactly one helper entry: every other registry's helper and
      every other top-level key is kept. */
  lemma MergeKeepsOtherEntries(doc: Json, registry: string, other: string)
    requires AddCredHelper(doc, registry).Ok?
    requires other != registry
    ensures var merged := AddCredHelper(doc, registry).value;
            && HelpersOf(merged)[registry] == JString(EcrHelper)
            && (other in HelpersOf(merged) <==> other in HelpersOf(doc))
            && (other in HelpersOf(doc) ==> HelpersOf(merged)[other] == HelpersOf(doc)[other])
            && (other != CredHelpersKey ==> (other in merged.fields <==> other in doc.fields))
            && (other != CredHelpersKey && other in doc.fields ==> merged.fields[other] == doc.fields[other])
  {
    var merged := AddCredHelper(doc, registry).value;
    if other != CredHelpersKey {
      assert other in merged.fields - {CredHelpersKey} <==> other in doc.fields - {CredHelpersKey};
      if other in doc.fields {
        assert (merged.fields - {CredHelpersKey})[other] == (doc.fields - {CredHelpersKey})[other];
      }
    }
  }

  /** Merging the same registry twice changes nothing the second time. */
  lemma MergeIdempotent(doc: Json, registry: string)
    requires AddCredHelper(doc, registry).Ok?
    ensures AddCredHelper(AddCredHelper(doc, registry).value, registry) == AddCredHelper(doc, registry)
  {
    var once := AddCredHelper(doc, registry).value;
    var helpers := once.fields[CredHelpersKey].fields;
    assert helpers[registry := JString(EcrHelper)] == helpers;
    assert once.fields[CredHelpersKey := JObject(helpers)] == once.fields;
  }

  /** A missing configuration file becomes a document holding only the helper
      entry. */
  lemma MergeIntoMissingFile(registry: string)
    ensures Load(Missing).Ok?
    ensures AddCredHelper(Load(Missing).value, registry)
            == Ok(JObject(map[CredHelpersKey := JObject(map[registry := JString(EcrHelper)])]))
  {
  }

  /** The configuration written back after a merge reads as the merged
      document, and merging the same registry into the rewritten file leaves
      it as it is: the load–merge–write cycle reaches a fixed point after one
      run. */
  lemma {:induction false} ReloadAfterMerge(f: DockerFile, registry: string)
    requires Load(f).Ok? && AddCredHelper(Load(f).value, registry).Ok?
    ensures var merged := AddCredHelper(Load(f).value, registry).value;
            && Load(Present(merged)) == Ok(merged)
            && AddCredHelper(Load(Present(merged)).value, registry) == Ok(merged)
            && HelpersOf(Load(Present(merged)).value)[registry] == JString(EcrHelper)
  {
    MergeIdempotent(Load(f).value, registry);
  }
}
