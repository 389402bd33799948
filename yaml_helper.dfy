/**
 * `YAMLHelper`: the loaded configuration document and the check that the
 * required top-level keys are present. Reading and parsing the file is a
 * parameter (`load`), standing for `open` followed by `yaml.safe_load`.
 */
module YamlHelper {
  import opened Wrappers
  import opened PyText

  /** The keys the constructor insists on. */
  const REQUIRED_KEYS: seq<string> := ["API_KEY", "RSS", "INTERESTS"]
  const MISSING_PREFIX := "Missing required keys in YAML: "

  /** A value inside the document, as far as membership tests can see it. */
  datatype Node = StrNode(s: string) | OtherNode

  /** What `yaml.safe_load` can return at the top level. */
  datatype Document =
    | Mapping(entries: map<string, Node>)
    | Sequence(items: seq<Node>)
    | Text(s: string)
    /** An empty file, or a bare number or boolean: `in` raises on these. */
    | NotIterable

  datatype ConfigError =
    | Unreadable(reason: string)
    /** `key not in data` raised a `TypeError`. */
    | NotAContainer
    | MissingKeys(keys: seq<string>, message: string)

  /** Documents that Python's `in` accepts. */
  predicate Container(doc: Document) {
    !doc.NotIterable?
  }

  /** Python's `key in data`: a key of a mapping, an element of a list, a substring of a string. */
  predicate Holds(doc: Document, key: string)
    requires Container(doc)
  {
    match doc
    case Mapping(entries) => key in entries
    case Sequence(items) => StrNode(key) in items
    case Text(s) => Contains(s, key)
  }

  /** `[key for key in required_keys if key not in self.data]`. */
  function Missing(required: seq<string>, doc: Document): seq<string>
    requires Container(doc)
  {
    if required == [] then []
    else (if Holds(doc, required[0]) then [] else [required[0]]) + Missing(required[1..], doc)
  }

  /** A key is reported missing iff it is required and absent. */
  lemma {:induction false} MissingMembers(required: seq<string>, doc: Document)
    requires Container(doc)
    ensures forall k :: k in Missing(required, doc) <==> k in required && !Holds(doc, k)
  {
    if required != [] {
      MissingMembers(required[1..], doc);
      assert required == [required[0]] + required[1..];
    }
  }

  /** Filtering a concatenation filters each part, so the required order is kept. */
  lemma {:induction false} MissingConcat(a: seq<string>, b: seq<string>, doc: Document)
    requires Container(doc)
    ensures Missing(a + b, doc) == Missing(a, doc) + Missing(b, doc)
  {
    if a == [] {
      assert a + b == b;
    } else {
      assert (a + b)[0] == a[0] && (a + b)[1..] == a[1..] + b;
      MissingConcat(a[1..], b, doc);
    }
  }

  /** Nothing is missing from a document that holds every required key, and all of them from one that holds none. */
  lemma {:induction false} MissingExtremes(required: seq<string>, doc: Document)
    requires Container(doc)
    ensures (forall i :: 0 <= i < |required| ==> Holds(doc, required[i])) ==> Missing(required, doc) == []
    ensures (forall i :: 0 <= i < |required| ==> !Holds(doc, required[i])) ==> Missing(required, doc) == required
  {
    if required != [] {
      MissingExtremes(required[1..], doc);
    }
  }

  /** Python's `repr` of a list of strings made of printable characters other than a quote or a backslash. */
  function ListRepr(keys: seq<string>): string {
    "[" + Join(Quoted(keys), ", ") + "]"
  }

  function Quoted(keys: seq<string>): (r: seq<string>)
    ensures |r| == |keys|
  {
    seq(|keys|, i requires 0 <= i < |keys| => "'" + keys[i] + "'")
  }

  /** The message names every key, each in quotes. */
  lemma ListReprNames(keys: seq<string>)
    ensures forall i :: 0 <= i < |keys| ==> Contains(ListRepr(keys), "'" + keys[i] + "'")
  {
    forall i | 0 <= i < |keys| ensures Contains(ListRepr(keys), "'" + keys[i] + "'") {
      var at := JoinHasItem(Quoted(keys), ", ", i);
      OccursInside("[", Join(Quoted(keys), ", "), "]", Quoted(keys)[i], at);
    }
  }

  /** `check_necessary_keys`: succeeds, or raises naming the missing keys. */
  function CheckKeys(required: seq<string>, doc: Document): Result<(), ConfigError> {
    if required == [] then Ok(())
    else if !Container(doc) then Err(NotAContainer)
    else
      var missing := Missing(required, doc);
      if missing != [] then Err(MissingKeys(missing, MISSING_PREFIX + ListRepr(missing))) else Ok(())
  }

  /**
   * The check fails on a document `in` cannot search (unless nothing is
   * required) and otherwise fails iff some required key is absent, naming
   * exactly the absent ones, in order, in its message.
   */
  lemma CheckKeysMeaning(required: seq<string>, doc: Document)
    ensures required != [] && !Container(doc) ==> CheckKeys(required, doc) == Err(NotAContainer)
    ensures Container(doc) ==>
      (CheckKeys(required, doc).Err? <==> exists i :: 0 <= i < |required| && !Holds(doc, required[i]))
    ensures Container(doc) && CheckKeys(required, doc).Err? ==>
      var e := CheckKeys(required, doc).error;
      && e.MissingKeys? && e.keys == Missing(required, doc)
      && forall k :: k in e.keys ==> Contains(e.message, "'" + k + "'")
  {
    if Container(doc) {
      MissingMembers(required, doc);
      var missing := Missing(required, doc);
      if missing != [] {
        MessageNames(missing);
      }
    }
  }

  /** The error message quotes every key it reports. */
  lemma MessageNames(keys: seq<string>)
    ensures forall k :: k in keys ==> Contains(MISSING_PREFIX + ListRepr(keys), "'" + k + "'")
  {
    ListReprNames(keys);
    forall k | k in keys ensures Contains(MISSING_PREFIX + ListRepr(keys), "'" + k + "'") {
      var i :| 0 <= i < |keys| && keys[i] == k;
      var at: nat :| at <= |ListRepr(keys)| && OccursAt(ListRepr(keys), "'" + k + "'", at);
      OccursInside(MISSING_PREFIX, ListRepr(keys), "", "'" + k + "'", at);
      assert MISSING_PREFIX + ListRepr(keys) + "" == MISSING_PREFIX + ListRepr(keys);
    }
  }

  /** `YAMLHelper`: the file it was built from and the document loaded from it. */
  class Config {
    const filename: string
    var data: Document

    /** A helper whose file has not been loaded yet. */
    constructor(filename: string)
      ensures this.filename == filename && data == NotIterable
    {
      this.filename := filename;
      data := NotIterable;
    }

    /** `load_yaml`: replaces the document with what the file holds, or raises. */
    method LoadYaml(load: string -> Result<Document, string>) returns (r: Result<(), ConfigError>)
      modifies this
      ensures load(filename).Ok? ==> r == Ok(()) && data == load(filename).value
      ensures load(filename).Err? ==> r == Err(Unreadable(load(filename).error)) && data == old(data)
    {
      var loaded := load(filename);
      if loaded.Err? {
        return Err(Unreadable(loaded.error));
      }
      data := loaded.value;
      r := Ok(());
    }

    /** `check_necessary_keys`: reads the document and leaves it as it was. */
    method CheckNecessaryKeys(required: seq<string>) returns (r: Result<(), ConfigError>)
      ensures r == CheckKeys(required, data)
    {
      var missing: seq<string> := [];
      if required != [] && !Container(data) {
        return Err(NotAContainer);
      }
      if required != [] {
        missing := Missing(required, data);
      }
      if missing != [] {
        return Err(MissingKeys(missing, MISSING_PREFIX + ListRepr(missing)));
      }
      r := Ok(());
    }
  }

  /** `YAMLHelper(filename)`: load the file, then insist on the three required keys. */
  method Open(filename: string, load: string -> Result<Document, string>) returns (r: Result<Config, ConfigError>)
    ensures load(filename).Err? ==> r == Err(Unreadable(load(filename).error))
    ensures load(filename).Ok? && CheckKeys(REQUIRED_KEYS, load(filename).value).Err? ==>
      r == Err(CheckKeys(REQUIRED_KEYS, load(filename).value).error)
    ensures r.Ok? <==> load(filename).Ok? && CheckKeys(REQUIRED_KEYS, load(filename).value).Ok?
    ensures r.Ok? ==> fresh(r.value) && r.value.filename == filename && r.value.data == load(filename).value
  {
    var config := new Config(filename);
    var loaded := config.LoadYaml(load);
    if loaded.Err? {
      return Err(loaded.error);
    }
    var checked := config.CheckNecessaryKeys(REQUIRED_KEYS);
    if checked.Err? {
      return Err(checked.error);
    }
    r := Ok(config);
  }

  /** With a mapping document, exactly the absent required keys are reported, in the order required. */
  lemma RequiredKeysReport(entries: map<string, Node>)
    ensures var m := Missing(REQUIRED_KEYS, Mapping(entries));
      m == (if "API_KEY" in entries then [] else ["API_KEY"])
         + (if "RSS" in entries then [] else ["RSS"])
         + (if "INTERESTS" in entries then [] else ["INTERESTS"])
  {
    var doc := Mapping(entries);
    assert REQUIRED_KEYS == ["API_KEY"] + (["RSS"] + ["INTERESTS"]);
    MissingConcat(["API_KEY"], ["RSS"] + ["INTERESTS"], doc);
    MissingConcat(["RSS"], ["INTERESTS"], doc);
    assert Missing(["API_KEY"], doc) == (if "API_KEY" in entries then [] else ["API_KEY"]);
    assert Missing(["RSS"], doc) == (if "RSS" in entries then [] else ["RSS"]);
    assert Missing(["INTERESTS"], doc) == (if "INTERESTS" in entries then [] else ["INTERESTS"]);
  }
}
