/**
  The model catalogs providers are built with: each model identifier keyed
  to its metadata record, in declaration order.  Each vendor's own listing
  is given where its provider is constructed; this module says what a
  listing becomes.  Prices are opaque decimal values; nothing computes with
  them.
 */
module Catalogs {

  import opened Base
  import opened Dict
  import opened Json

  /** What a catalog records about one model besides its identifier.  The
      mock models record a description and a token limit; the network
      providers' models also a version, their strengths and the price per
      million input and output tokens; Google's also the context window. */
  datatype Details =
    | Basic(description: string, maxTokens: int)
    | Priced(description: string, version: string, maxTokens: int,
             strengths: seq<string>, costIn: real, costOut: real)
    | Windowed(description: string, version: string, maxTokens: int, contextWindow: int,
               strengths: seq<string>, costIn: real, costOut: real)

  /** The fields of a model's catalog record, in the order the source dict
      literal lists them: the mock catalog's fixed version and zero prices
      per thousand tokens, the other catalogs' prices per million tokens. */
  function RecordFields(name: string, d: Details): Dict<Json> {
    match d
    case Basic(description, maxTokens) =>
      [("name", JStr(name)), ("description", JStr(description)), ("version", JStr("1.0")),
       ("max_tokens", JInt(maxTokens)),
       ("cost_per_1k_input", JFloat(0.0)), ("cost_per_1k_output", JFloat(0.0))]
    case Priced(description, version, maxTokens, strengths, costIn, costOut) =>
      [("name", JStr(name)), ("description", JStr(description)), ("version", JStr(version)),
       ("max_tokens", JInt(maxTokens)), ("strengths", StrList(strengths)),
       ("cost_per_1m_input", JFloat(costIn)), ("cost_per_1m_output", JFloat(costOut))]
    case Windowed(description, version, maxTokens, contextWindow, strengths, costIn, costOut) =>
      [("name", JStr(name)), ("description", JStr(description)), ("version", JStr(version)),
       ("max_tokens", JInt(maxTokens)), ("context_window", JInt(contextWindow)),
       ("strengths", StrList(strengths)),
       ("cost_per_1m_input", JFloat(costIn)), ("cost_per_1m_output", JFloat(costOut))]
  }

  /** The catalog record of a model, as the dict the provider stores. */
  function Record(name: string, d: Details): Json {
    JObj(RecordFields(name, d))
  }

  /** A record names its model, states its token limit and description,
      and never lists a key twice. */
  lemma RecordReads(name: string, d: Details)
    ensures DistinctKeys(Record(name, d).fields)
    ensures Get(Record(name, d).fields, "name") == Some(JStr(name))
    ensures Get(Record(name, d).fields, "description") == Some(JStr(d.description))
    ensures Get(Record(name, d).fields, "max_tokens") == Some(JInt(d.maxTokens))
  {
    var fs := RecordFields(name, d);
    assert fs[0].0 == "name" && fs[1].0 == "description" && fs[3].0 == "max_tokens";
    GetOfDistinct(fs, 0);
    GetOfDistinct(fs, 1);
    GetOfDistinct(fs, 3);
  }

  /** A listing as the catalog dict: each identifier keyed to its record. */
  function Records(l: seq<(string, Details)>): (c: Dict<Json>)
    ensures |c| == |l|
    ensures forall i :: 0 <= i < |l| ==> c[i] == (l[i].0, Record(l[i].0, l[i].1))
  {
    seq(|l|, i requires 0 <= i < |l| => (l[i].0, Record(l[i].0, l[i].1)))
  }

  /** The identifiers of a listing, in order. */
  function Names(l: seq<(string, Details)>): (r: seq<string>)
    ensures |r| == |l|
    ensures forall i :: 0 <= i < |l| ==> r[i] == l[i].0
  {
    seq(|l|, i requires 0 <= i < |l| => l[i].0)
  }

  predicate NamesDistinct(l: seq<(string, Details)>) {
    forall i, j :: 0 <= i < j < |l| ==> l[i].0 != l[j].0
  }

  /** A catalog built from a listing that names no model twice offers exactly
      the listed identifiers in listing order, and looking an identifier up
      finds the record built from its details. */
  lemma RecordsKeys(l: seq<(string, Details)>)
    requires NamesDistinct(l)
    ensures DistinctKeys(Records(l))
    ensures Keys(Records(l)) == Names(l)
    ensures forall i :: 0 <= i < |l| ==> Get(Records(l), l[i].0) == Some(Record(l[i].0, l[i].1))
  {
    var c := Records(l);
    LiteralReads(c);
  }

  /** Whatever the listing, every record in its catalog is a dict whose
      `name` is the identifier it is filed under. */
  lemma RecordsNamed(l: seq<(string, Details)>, k: string)
    requires HasKey(Records(l), k)
    ensures Get(Records(l), k).value.JObj?
    ensures Get(Get(Records(l), k).value.fields, "name") == Some(JStr(k))
  {
    var c := Records(l);
    var i := GetEntry(c, k);
    RecordReads(l[i].0, l[i].1);
  }
}
