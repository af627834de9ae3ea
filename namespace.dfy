/**
 * Namespace resolution (`alto_parse`): which ALTO dialect a document uses,
 * decided from its root element before any extraction runs.
 *
 * The candidate namespace is the root tag's `{uri}` prefix when that prefix
 * contains "http://"; otherwise it is the second space-separated token of
 * the printed attribute dictionary of the root (given here as the string
 * `attrRepr`, Python's `str(root.attrib)`), with `}` and then `'` stripped
 * from both ends; with no such token it is "no_namespace_found". The document
 * is accepted only when the candidate equals an entry of the allow-list.
 */
module Namespace {
  import opened PyStr

  /** The scheme every registered URI but one starts with. */
  const Http := "http://"

  const Alto1 := Http + "schema.ccs-gmbh.com/ALTO"
  const Alto1Xsd := Http + "schema.ccs-gmbh.com/ALTO/alto-1-4.xsd"
  const Alto2 := Http + "www.loc.gov/standards/alto/ns-v2#"
  const Alto2Xsd := "https://www.loc.gov/standards/alto/alto.xsd"
  const Alto3 := Http + "www.loc.gov/standards/alto/ns-v3#"
  const Alto3Xsd := Http + "www.loc.gov/standards/alto/v3/alto.xsd"
  const Alto4 := Http + "www.loc.gov/standards/alto/ns-v4#"
  const Alto4Xsd := Http + "www.loc.gov/standards/alto/v4/alto.xsd"
  const AltoBnf := Http + "bibnum.bnf.fr/ns/alto_prod"
  const AltoBnfXsd := Http + "bibnum.bnf.fr/ns/alto_prod.xsd"

  /** The allow-list of the packaged tool: ALTO 1-4 and the BnF dialect, each with its schema URI. */
  const Registered: seq<string> :=
    [Alto1, Alto1Xsd, Alto2, Alto2Xsd, Alto3, Alto3Xsd, Alto4, Alto4Xsd, AltoBnf, AltoBnfXsd]

  /** The allow-list of the older top-level `alto_tools.py`. */
  const LegacyRegistered: seq<string> := [Alto1, Alto2, Alto3, Alto4, AltoBnf]

  /** The allow-list of the one-shot text and metadata scripts. */
  const ScriptRegistered: seq<string> := [Alto1, Alto2, Alto3]

  const NoNamespace := "no_namespace_found"

  /** `root.tag.split("}")[0].strip("{")`. */
  function TagNamespace(rootTag: string): string {
    Strip(BeforeFirst(rootTag, '}'), '{')
  }

  /** `str(root.attrib).split(" ")[1].strip("}").strip("'")`; `None` where Python raises IndexError. */
  function AttributeNamespace(attrRepr: string): Option<string> {
    match SecondField(attrRepr, ' ')
    case None => None
    case Some(token) => Some(Strip(Strip(token, '}'), '\''))
  }

  /** True when the namespace is taken from the root tag rather than from the attributes. */
  predicate FromTag(rootTag: string) {
    Contains(TagNamespace(rootTag), Http)
  }

  /** The namespace candidate both versions of `alto_parse` compare against their allow-list. */
  function Candidate(rootTag: string, attrRepr: string): (r: string)
    ensures FromTag(rootTag) ==> r == TagNamespace(rootTag) && Contains(r, Http)
    ensures !FromTag(rootTag) && ' ' !in attrRepr ==> r == NoNamespace
    ensures !FromTag(rootTag) && ' ' in attrRepr ==> ' ' !in r && (|r| > 0 ==> r[0] != '\'' && r[|r| - 1] != '\'')
  {
    if FromTag(rootTag) then TagNamespace(rootTag)
    else match AttributeNamespace(attrRepr)
      case Some(ns) => ns
      case None => NoNamespace
  }

  /**
   * What `alto_parse` gives back: the namespace when the document is accepted
   * (the source returns the triple `(alto, xml, xmlns)`, `None` otherwise),
   * and the diagnostics it writes to standard output and standard error.
   */
  datatype Parsed = Parsed(xmlns: Option<string>, out: string, err: string)

  /** `alto_parse` of the packaged tool, from the point where the tree exists. */
  function AltoParse(fileName: string, rootTag: string, attrRepr: string): (r: Parsed)
    ensures r.xmlns.Some? <==> Candidate(rootTag, attrRepr) in Registered
    ensures r.xmlns.Some? ==> r.xmlns.value == Candidate(rootTag, attrRepr) && r.out == ""
    ensures r.xmlns.None? ==>
              r.out == "\nERROR: File \"" + fileName + "\": namespace " + Candidate(rootTag, attrRepr) + " is not registered.\n"
    ensures r.err != "" <==> !FromTag(rootTag) && ' ' !in attrRepr
  {
    var xmlns := Candidate(rootTag, attrRepr);
    var err :=
      if !FromTag(rootTag) && AttributeNamespace(attrRepr).None?
      then "\nERROR: File \"" + fileName + "\": no namespace declaration found."
      else "";
    if xmlns in Registered then Parsed(Some(xmlns), "", err)
    else Parsed(None, "\nERROR: File \"" + fileName + "\": namespace " + xmlns + " is not registered.\n", err)
  }

  /** `alto_parse` of the older top-level `alto_tools.py`: five URIs, warnings on standard output. */
  function LegacyAltoParse(fileName: string, rootTag: string, attrRepr: string): (r: Parsed)
    ensures r.xmlns.Some? <==> Candidate(rootTag, attrRepr) in LegacyRegistered
    ensures r.xmlns.Some? ==> r.xmlns.value == Candidate(rootTag, attrRepr) && r.out == ""
    ensures r.xmlns.None? ==>
              r.out == (if !FromTag(rootTag) && ' ' !in attrRepr
                        then "\nWARNING: File \"" + fileName + "\": no namespace declaration found."
                        else "")
                       + "\nWARNING: File \"" + fileName + "\": namespace is not registered."
    ensures r.err == ""
  {
    var xmlns := Candidate(rootTag, attrRepr);
    var missing :=
      if !FromTag(rootTag) && AttributeNamespace(attrRepr).None?
      then "\nWARNING: File \"" + fileName + "\": no namespace declaration found."
      else "";
    if xmlns in LegacyRegistered then Parsed(Some(xmlns), missing, "")
    else Parsed(None, missing + "\nWARNING: File \"" + fileName + "\": namespace is not registered.", "")
  }

  /** The line the one-shot text and metadata scripts print for a document their gate refuses. */
  const NotAlto := "ERROR: Not a valid ALTO file (namespace declaration missing)\n"

  /** The gate of the one-shot text and metadata scripts: the root-tag prefix only, three URIs. */
  function ScriptGate(rootTag: string): (r: Option<string>)
    ensures r.Some? <==> TagNamespace(rootTag) in ScriptRegistered
    ensures r.Some? ==> r.value == TagNamespace(rootTag)
  {
    var xmlns := TagNamespace(rootTag);
    if xmlns in ScriptRegistered then Some(xmlns) else None
  }

  /** Reading the namespace back out of a qualified root tag gives the namespace it was built with. */
  lemma TagNamespaceOfQName(uri: string, local: string)
    requires '}' !in uri && |uri| > 0 && uri[0] != '{' && uri[|uri| - 1] != '{'
    ensures TagNamespace("{" + uri + "}" + local) == uri
  {
    assert "{" + uri + "}" + local == ("{" + uri) + ['}'] + local;
    BeforeFirstAt("{" + uri, local, '}');
    assert "{" + uri == ['{'] + uri;
    StripOneLeading(uri, '{');
  }

  /** A root tag qualified with an http URI yields that URI, whatever the attributes say. */
  lemma CandidateFromTag(uri: string, local: string, attrRepr: string)
    requires '}' !in uri && |uri| > 0 && uri[0] != '{' && uri[|uri| - 1] != '{'
    requires Contains(uri, Http)
    ensures Candidate("{" + uri + "}" + local, attrRepr) == uri
  {
    TagNamespaceOfQName(uri, local);
  }

  /** The second field of `key + " " + rest` is the first field of `rest`. */
  lemma SecondFieldAfter(key: string, rest: string)
    requires ' ' !in key
    ensures SecondField(key + " " + rest, ' ') == Some(BeforeFirst(rest, ' '))
  {
    var repr := key + " " + rest;
    assert repr == key + [' '] + rest;
    BeforeFirstAt(key, rest, ' ');
    assert repr[|key| + 1..] == rest;
    assert Split(repr, ' ') == [key] + Split(rest, ' ');
  }

  /**
   * Without an http URI in the root tag, the candidate is the value of a
   * single attribute when the repr is `{'key': 'uri'}` ...
   */
  lemma CandidateFromSingleAttribute(rootTag: string, key: string, uri: string)
    requires !FromTag(rootTag)
    requires ' ' !in key
    requires |uri| > 0 && ' ' !in uri && '\'' !in uri && '}' !in uri
    ensures Candidate(rootTag, key + " '" + uri + "'}") == uri
  {
    var quoted := ['\''] + uri + ['\''];
    var rest := quoted + ['}'];
    assert SecondField(key + " '" + uri + "'}", ' ') == Some(rest) by {
      assert key + " '" + uri + "'}" == key + " " + rest;
      SecondFieldAfter(key, rest);
      BeforeFirstAt(rest, "", ' ');
    }
    assert Strip(rest, '}') == quoted by {
      StripOneTrailing(quoted, '}');
    }
    StripOneEach(uri, '\'');
  }

  /**
   * ... and the first word of the value when the value goes on after a space,
   * as in `{'...schemaLocation': 'uri schema.xsd'}`.
   */
  lemma CandidateFromFirstWord(rootTag: string, key: string, uri: string, more: string)
    requires !FromTag(rootTag)
    requires ' ' !in key
    requires |uri| > 0 && ' ' !in uri && '\'' !in uri && '}' !in uri
    ensures Candidate(rootTag, key + " '" + uri + " " + more) == uri
  {
    var word := "'" + uri;
    assert key + " '" + uri + " " + more == key + " " + (word + [' '] + more);
    SecondFieldAfter(key, word + [' '] + more);
    BeforeFirstAt(word, more, ' ');
    StripUntouched(word, '}');
    assert word == ['\''] + uri;
    StripOneLeading(uri, '\'');
  }

  /** With no http URI in the root tag and no space in the attribute repr, every version rejects the document. */
  lemma NoDeclarationRejected(fileName: string, rootTag: string, attrRepr: string)
    requires !FromTag(rootTag) && ' ' !in attrRepr
    ensures Candidate(rootTag, attrRepr) == NoNamespace
    ensures AltoParse(fileName, rootTag, attrRepr).xmlns.None?
    ensures LegacyAltoParse(fileName, rootTag, attrRepr).xmlns.None?
  {
    NoNamespaceUnlisted();
  }

  lemma NoNamespaceUnlisted()
    ensures NoNamespace !in Registered && NoNamespace !in LegacyRegistered
  {
  }

  /** ... and the packaged tool says so on standard error. */
  lemma NoDeclarationReported(fileName: string, rootTag: string, attrRepr: string)
    requires !FromTag(rootTag) && ' ' !in attrRepr
    ensures AltoParse(fileName, rootTag, attrRepr).err == "\nERROR: File \"" + fileName + "\": no namespace declaration found."
  {
  }

  /** No registered URI is 39 characters long. */
  lemma RegisteredShape()
    ensures forall u :: u in Registered ==> |u| != 39
  {
  }

  /** Whatever the older tool accepts, the packaged tool accepts with the same namespace. */
  lemma LegacyAcceptanceKept(fileName: string, rootTag: string, attrRepr: string)
    requires LegacyAltoParse(fileName, rootTag, attrRepr).xmlns.Some?
    ensures AltoParse(fileName, rootTag, attrRepr).xmlns == LegacyAltoParse(fileName, rootTag, attrRepr).xmlns
  {
  }

  lemma StartsWithHttp(rest: string)
    ensures Contains(Http + rest, Http)
  {
    assert OccursAt(Http + rest, Http, 0);
  }

  /** A root tag whose namespace has an http URI on the allow-list is accepted with that namespace. */
  lemma AcceptedFromTag(fileName: string, rootTag: string, attrRepr: string)
    requires FromTag(rootTag) && TagNamespace(rootTag) in Registered
    ensures AltoParse(fileName, rootTag, attrRepr).xmlns == Some(TagNamespace(rootTag))
  {
    assert Candidate(rootTag, attrRepr) == TagNamespace(rootTag);
  }

  /** Every URI of the scripts' list starts with http:// and is on the packaged tool's list. */
  lemma ScriptListInRegistered(ns: string)
    requires ns in ScriptRegistered
    ensures Contains(ns, Http) && ns in Registered
  {
    if ns == Alto1 { StartsWithHttp("schema.ccs-gmbh.com/ALTO"); }
    else if ns == Alto2 { StartsWithHttp("www.loc.gov/standards/alto/ns-v2#"); }
    else { StartsWithHttp("www.loc.gov/standards/alto/ns-v3#"); }
  }

  /** Whatever the one-shot scripts accept, the packaged tool accepts with the same namespace. */
  lemma ScriptAcceptanceKept(fileName: string, rootTag: string, attrRepr: string)
    requires ScriptGate(rootTag).Some?
    ensures AltoParse(fileName, rootTag, attrRepr).xmlns == ScriptGate(rootTag)
  {
    ScriptListInRegistered(TagNamespace(rootTag));
    AcceptedFromTag(fileName, rootTag, attrRepr);
  }

  /** The bundled ALTO v3 sample page resolves to the v3 namespace. */
  lemma SampleResolvesToV3(fileName: string, rootTag: string, attrRepr: string)
    requires rootTag == "{" + Alto3 + "}" + "alto"
    ensures AltoParse(fileName, rootTag, attrRepr).xmlns == Some(Alto3)
  {
    assert '}' !in Alto3 && Alto3[0] == 'h' && Alto3[|Alto3| - 1] == '#';
    TagNamespaceOfQName(Alto3, "alto");
    ScriptListInRegistered(Alto3);
    AcceptedFromTag(fileName, rootTag, attrRepr);
  }

  /** A candidate that is not on the allow-list is refused. */
  lemma RejectedCandidate(fileName: string, rootTag: string, attrRepr: string)
    requires Candidate(rootTag, attrRepr) !in Registered
    ensures AltoParse(fileName, rootTag, attrRepr).xmlns.None?
  {
  }

  /** Matching is exact: the v3 URI without its trailing `#` is not registered. */
  lemma NoPrefixMatching(fileName: string, rootTag: string, attrRepr: string)
    requires rootTag == "{" + Http + "www.loc.gov/standards/alto/ns-v3" + "}" + "alto"
    ensures AltoParse(fileName, rootTag, attrRepr).xmlns.None?
  {
    var uri := Http + "www.loc.gov/standards/alto/ns-v3";
    assert uri !in Registered by {
      assert |uri| == 39;
      RegisteredShape();
    }
    assert Candidate(rootTag, attrRepr) == uri by {
      assert rootTag == "{" + uri + "}" + "alto";
      StartsWithHttp("www.loc.gov/standards/alto/ns-v3");
      assert '}' !in uri && uri[0] == 'h' && uri[|uri| - 1] == '3';
      CandidateFromTag(uri, "alto", attrRepr);
    }
    RejectedCandidate(fileName, rootTag, attrRepr);
  }

  lemma V4NotInScriptList()
    ensures Alto4 !in ScriptRegistered
  {
    assert Alto4[38] == '4' && Alto2[38] == '2' && Alto3[38] == '3' && |Alto1| != |Alto4|;
  }

  /** The one-shot scripts refuse an ALTO v4 document. */
  lemma ScriptsRefuseV4(rootTag: string)
    requires rootTag == "{" + Alto4 + "}" + "alto"
    ensures ScriptGate(rootTag).None?
  {
    assert '}' !in Alto4 && Alto4[0] == 'h' && Alto4[|Alto4| - 1] == '#';
    TagNamespaceOfQName(Alto4, "alto");
    V4NotInScriptList();
  }

  /** The packaged tool accepts the same ALTO v4 document. */
  lemma PackagedAcceptsV4(fileName: string, rootTag: string, attrRepr: string)
    requires rootTag == "{" + Alto4 + "}" + "alto"
    ensures AltoParse(fileName, rootTag, attrRepr).xmlns == Some(Alto4)
  {
    assert '}' !in Alto4 && Alto4[0] == 'h' && Alto4[|Alto4| - 1] == '#';
    TagNamespaceOfQName(Alto4, "alto");
    StartsWithHttp("www.loc.gov/standards/alto/ns-v4#");
    AcceptedFromTag(fileName, rootTag, attrRepr);
  }
}
