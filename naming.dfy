/**
 * The naming rules of the configuration class: the concrete and temporary
 * index behind an alias, the major version of the engine, the mapping file
 * for a document type, and the URL the client connects to.
 */
module Naming {
  import opened Wrappers
  import opened JsValues

  /** `_buildIndexNameByAlias`: the concrete index that backs an alias. */
  function RealName(alias: string): string {
    "real." + alias
  }

  /** The temporary index used while an alias is rebuilt: "tmp." before the concrete name. */
  function TmpName(alias: string): string {
    "tmp." + RealName(alias)
  }

  /** An alias, its concrete index and its temporary index are three different names. */
  lemma NamesDistinct(alias: string)
    ensures alias != RealName(alias)
    ensures RealName(alias) != TmpName(alias)
    ensures alias != TmpName(alias)
  {
    assert |RealName(alias)| == |alias| + 5;
    assert |TmpName(alias)| == |alias| + 9;
  }

  /** Different aliases are backed by different concrete and temporary indices. */
  lemma NamesInjective(a: string, b: string)
    requires RealName(a) == RealName(b) || TmpName(a) == TmpName(b)
    ensures a == b
  {
    if TmpName(a) == TmpName(b) {
      assert RealName(a) == TmpName(a)[4..] && RealName(b) == TmpName(b)[4..];
    }
    assert a == RealName(a)[5..] && b == RealName(b)[5..];
  }

  /**
   * `version.number.split('.', 1)[0]`: the text before the first dot, or
   * the whole number when it has no dot.
   */
  function MajorVersion(number: string): (major: string)
    ensures major <= number
    ensures '.' !in major
    ensures |major| < |number| ==> number[|major|] == '.'
  {
    if number == [] || number[0] == '.' then "" else [number[0]] + MajorVersion(number[1..])
  }

  /** The three properties of MajorVersion determine it: it is exactly the text before the first dot. */
  lemma {:induction false} MajorVersionUnique(number: string, major: string)
    requires major <= number
    requires '.' !in major
    requires |major| < |number| ==> number[|major|] == '.'
    ensures major == MajorVersion(number)
  {
    if major != [] {
      assert number[0] == major[0];
      MajorVersionUnique(number[1..], major[1..]);
    }
  }

  lemma MajorVersionOfTestVersion()
    ensures MajorVersion("2.3.2") == "2"
  {
    MajorVersionUnique("2.3.2", "2");
  }

  /** The directory of mapping files: the `path` option when it is given, else `../data/<major>.x/`. */
  function ConfigDirectory(path: Option<string>, major: string): string {
    if Given(path) then path.value else "../data/" + major + ".x/"
  }

  /** The mapping file of a document type: `<directory><type>.json`. */
  function ConfigFile(path: Option<string>, major: string, docType: string): string {
    ConfigDirectory(path, major) + docType + ".json"
  }

  /** With the `path` option the file name starts with that path and ends with `<type>.json`. */
  lemma ConfigFileFromPathOption(path: string, major: string, docType: string)
    requires path != ""
    ensures ConfigFile(Some(path), major, docType) == path + docType + ".json"
  {
  }

  /** Without it, `<type>.json` sits inside the versioned data directory, after a nonempty prefix. */
  lemma DefaultConfigFile(path: Option<string>, major: string, docType: string)
    requires !Given(path)
    ensures var file := ConfigFile(path, major, docType);
      var k := |file| - |docType + ".json"|;
      && k > 0
      && file[k..] == docType + ".json"
      && file[..k] == "../data/" + major + ".x/"
  {
  }

  /** Two document types never share a mapping file name (the name before `path.resolve`). */
  lemma ConfigFileInjective(path: Option<string>, major: string, t1: string, t2: string)
    requires ConfigFile(path, major, t1) == ConfigFile(path, major, t2)
    ensures t1 == t2
  {
    var dir := ConfigDirectory(path, major);
    var f1, f2 := ConfigFile(path, major, t1), ConfigFile(path, major, t2);
    assert |t1| == |t2|;
    assert t1 == f1[|dir|..|f1| - 5];
    assert t2 == f2[|dir|..|f2| - 5];
  }

  /** The options the constructor reads. */
  datatype Settings = Settings(url: Option<string>, host: Option<Json>, port: Option<Json>, path: Option<string>)

  /** `constants.ELASTIC`, used when the constructor gets no options. */
  const DefaultSettings: Settings := Settings(None, Some(JStr("localhost")), Some(JNum(9200)), None)

  /** `options.url ? options.url : 'http://' + options.host + ':' + options.port`. */
  function ClientUrl(s: Settings): string {
    if Given(s.url) then s.url.value else "http://" + StringOf(s.host) + ":" + StringOf(s.port)
  }

  /** A given `url` wins over host and port; otherwise the URL is built from both. */
  lemma ClientUrlChoice(s: Settings)
    ensures Given(s.url) ==> ClientUrl(s) == s.url.value
    ensures !Given(s.url) ==> "http://" <= ClientUrl(s)
    ensures !Given(s.url) && s.host == Some(JStr("es1")) && s.port == Some(JNum(5455)) ==>
      ClientUrl(s) == "http://es1:5455"
  {
    if !Given(s.url) && s.port == Some(JNum(5455)) {
      assert NatToString(5455) == "5455" by {
        assert NatToString(5) == "5";
        assert NatToString(54) == "54";
        assert NatToString(545) == "545";
      }
    }
  }

  /** With no options the client connects to the default local engine. */
  lemma DefaultClientUrl()
    ensures ClientUrl(DefaultSettings) == "http://localhost:9200"
  {
    assert NatToString(9200) == "9200" by {
      assert NatToString(9) == "9";
      assert NatToString(92) == "92";
      assert NatToString(920) == "920";
    }
  }
}
