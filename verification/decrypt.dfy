/** `decrypt_file`: deciding whether a secret file is sops-encrypted, and which
    path the caller should read it from. */
module Decrypt {
  import opened Common
  import opened Paths

  /** A parsed document, as far as the helpers look into it: a top-level
      mapping (values rendered as strings), or a value that `in` and `[]`
      reject, such as null or a number. */
  datatype Document = Mapping(fields: map<string, string>) | NoContainer

  /** What the loader chosen by the file's extension does with it: a document,
      the syntax error `decrypt_file` catches (a YAML ScannerError or a JSON
      JSONDecodeError), or any other loader exception, which propagates. */
  datatype ParseOutcome = Parsed(doc: Document) | Malformed | LoaderError

  /** The path `decrypt_file` yields: the file itself, or a fresh temporary file
      holding the decrypted contents. */
  datatype Resolved = Plaintext(path: string) | Decrypted(path: string)

  /** The top-level key whose presence marks a sops-encrypted document. */
  const SopsKey: string := "sops"

  /** The extensions `decrypt_file` knows how to parse. */
  predicate Structured(path: string)
  {
    var ext := Extension(path);
    ext == ".yaml" || ext == ".yml" || ext == ".json"
  }

  /** A file `decrypt_file` hands to sops: it exists, its extension is parsed,
      and it parses to a mapping carrying the sops marker. */
  predicate Encrypted(path: string, file: Option<ParseOutcome>)
  {
    && file.Some?
    && Structured(path)
    && file.value.Parsed?
    && file.value.doc.Mapping?
    && SopsKey in file.value.doc.fields
  }

  /** `decrypt_file(path)` up to its `yield`. `file` is None when the file does
      not exist; `temp` is the fresh temporary file's name; `sopsSucceeds` is
      whether `sops --output temp --decrypt path` exits with status 0. */
  function DecryptFile(path: string, file: Option<ParseOutcome>, temp: string, sopsSucceeds: bool): (r: Result<Resolved>)
    ensures file.None? ==> r == Err(FileNotFound(path))
    ensures r.Ok? ==> Structured(path)
    ensures r.Ok? ==> (r.value.Decrypted? <==> Encrypted(path, file))
    ensures r.Ok? && r.value.Plaintext? ==> r.value.path == path
    ensures r.Ok? && r.value.Decrypted? ==> r.value.path == temp
    ensures Encrypted(path, file) ==> (r.Ok? <==> sopsSucceeds)
    ensures Encrypted(path, file) && !sopsSucceeds ==> r == Err(ToolFailed(SopsDecrypt(temp, path)))
    ensures r.Err? && r.error.ToolFailed? ==> Encrypted(path, file) && !sopsSucceeds
  {
    if file.None? then Err(FileNotFound(path))
    else if !Structured(path) then Err(UnboundLocal("encrypted_data"))
    else
      match file.value
      case Malformed => Ok(Plaintext(path))
      case LoaderError => Err(Unparseable(path))
      case Parsed(NoContainer) => Err(NotIterable)
      case Parsed(Mapping(fields)) =>
        if SopsKey !in fields then Ok(Plaintext(path))
        else if sopsSucceeds then Ok(Decrypted(temp))
        else Err(ToolFailed(SopsDecrypt(temp, path)))
  }

  /** The original path comes back exactly for an existing structured file that
      either fails to parse with a syntax error or parses to a mapping without
      the sops marker. */
  lemma YieldsOriginalExactlyWhenPlain(path: string, file: Option<ParseOutcome>, temp: string, sopsSucceeds: bool)
    ensures DecryptFile(path, file, temp, sopsSucceeds) == Ok(Plaintext(path)) <==>
              && file.Some?
              && Structured(path)
              && (|| file.value.Malformed?
                  || (file.value.Parsed? && file.value.doc.Mapping? && SopsKey !in file.value.doc.fields))
  {
  }

  /** An existing file whose extension is not parsed never yields: the check of
      the marker reads a variable that was never assigned. */
  lemma UnstructuredNeverYields(path: string, outcome: ParseOutcome, temp: string, sopsSucceeds: bool)
    requires !Structured(path)
    ensures DecryptFile(path, Some(outcome), temp, sopsSucceeds) == Err(UnboundLocal("encrypted_data"))
  {
  }

  /** Files named `<stem>.yaml`, `<stem>.yml` and `<stem>.json` are parsed. */
  lemma {:induction false} DecisionByName(stem: string)
    requires |stem| > 0 && stem[|stem| - 1] != '.' && stem[|stem| - 1] != '/'
    ensures Structured(stem + ".yaml") && Structured(stem + ".yml") && Structured(stem + ".json")
  {
    ExtensionOfSuffix(stem, ".yaml");
    ExtensionOfSuffix(stem, ".yml");
    ExtensionOfSuffix(stem, ".json");
  }

  /** A file named `<stem>.txt` never yields, whatever it holds. */
  lemma {:induction false} TextFileNeverYields(stem: string, outcome: ParseOutcome, temp: string, sopsSucceeds: bool)
    requires |stem| > 0 && stem[|stem| - 1] != '.' && stem[|stem| - 1] != '/'
    ensures DecryptFile(stem + ".txt", Some(outcome), temp, sopsSucceeds) == Err(UnboundLocal("encrypted_data"))
  {
    ExtensionOfSuffix(stem, ".txt");
    UnstructuredNeverYields(stem + ".txt", outcome, temp, sopsSucceeds);
  }
}
