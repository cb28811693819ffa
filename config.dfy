/**
 * The connection configuration (`GNS3Config`) and how `load_config` resolves each
 * field: an environment variable beats the `"gns3"` section of the config file,
 * which beats the built-in default. The environment (after `.env` loading) and
 * the parsed config file are given as values; reading them is not modelled.
 */
module Config {
  import opened Results
  import opened Dicts
  import opened JsonValues
  import Numerals

  datatype GNS3Config = GNS3Config(
    host: string,
    port: int,
    protocol: string,
    verifySsl: bool,
    timeout: int,
    authRequired: bool,
    username: Option<string>,
    password: Option<string>)

  /** The dataclass defaults. */
  function Defaults(): GNS3Config {
    GNS3Config("localhost", 3080, "http", true, 30, false, None, None)
  }

  /** The `base_url` property. */
  function BaseUrl(c: GNS3Config): string {
    c.protocol + "://" + c.host + ":" + Numerals.IntToString(c.port) + "/v2"
  }

  /** The process environment: variable name to value. */
  type Environment = map<string, string>

  /** What makes `load_config` raise. */
  datatype LoadError =
    | NotADict               // the file document or its "gns3" member has no `.get` (AttributeError)
    | NotAnInteger(v: Json)  // `int(v)` fails for the chosen port or timeout (ValueError or TypeError)

  function EnvGet(env: Environment, name: string): Option<string> {
    if name in env then Some(env[name]) else None
  }

  /** `os.getenv(name, data.get(key, default))`, before any conversion. */
  function Chosen(env: Environment, name: string, data: Dict<string, Json>, key: string, default: Json): Json {
    if name in env then JStr(env[name]) else Lookup(data, key).GetOr(default)
  }

  /** Python's `int(v)` on a chosen value. */
  function ToInt(v: Json): Result<int, LoadError> {
    match v
    case JInt(i) => Success(i)
    case JBool(b) => Success(if b then 1 else 0)
    case JStr(s) => if Numerals.IsIntText(s) then Success(Numerals.IntTextValue(s)) else Failure(NotAnInteger(v))
    case _ => Failure(NotAnInteger(v))
  }

  /** `c.lower()` for an ASCII letter; other characters are kept. */
  function LowerChar(c: char): char {
    if 'A' <= c <= 'Z' then (c as int + 32) as char else c
  }

  function Lower(s: string): (r: string)
    ensures |r| == |s|
    ensures forall i :: 0 <= i < |s| ==> r[i] == LowerChar(s[i])
  {
    if s == [] then [] else [LowerChar(s[0])] + Lower(s[1..])
  }

  /** `s.lower() == "true"`. */
  predicate IsTrueText(s: string) {
    Lower(s) == "true"
  }

  /** The `"gns3"` section of the file, as `json.load(f).get("gns3", {})`; an absent file gives `{}`. */
  function Section(document: Option<Json>): Result<Json, LoadError> {
    match document
    case None => Success(JObject([]))
    case Some(JObject(fields)) => Success(Lookup(fields, "gns3").GetOr(JObject([])))
    case Some(_) => Failure(NotADict)
  }

  /** `load_config()` given the environment and the parsed file (None when the file does not exist). */
  function LoadConfig(env: Environment, document: Option<Json>): Result<GNS3Config, LoadError> {
    var section := Section(document);
    if section.Failure? then Failure(section.error)
    else if !section.value.JObject? then Failure(NotADict)
    else
      var data := section.value.fields;
      var port := ToInt(Chosen(env, "GNS3_PORT", data, "port", JInt(3080)));
      if port.Failure? then Failure(port.error)
      else
        var timeout := ToInt(Chosen(env, "GNS3_TIMEOUT", data, "timeout", JInt(30)));
        if timeout.Failure? then Failure(timeout.error)
        else
          Success(GNS3Config(
            host := PyStr(Chosen(env, "GNS3_HOST", data, "host", JStr("localhost"))),
            port := port.value,
            protocol := PyStr(Chosen(env, "GNS3_PROTOCOL", data, "protocol", JStr("http"))),
            verifySsl := IsTrueText(PyStr(Chosen(env, "GNS3_VERIFY_SSL", data, "verify_ssl", JBool(true)))),
            timeout := timeout.value,
            authRequired := IsTrueText(PyStr(Chosen(env, "GNS3_AUTH_REQUIRED", data, "auth_required", JBool(false)))),
            username := EnvGet(env, "GNS3_USERNAME"),
            password := EnvGet(env, "GNS3_PASSWORD")))
  }

  // ---------------------------------------------------------------------------
  // base_url

  lemma NoColonInDigits(s: string)
    requires Numerals.AllDigits(s)
    ensures ':' !in s
  {
    forall i | 0 <= i < |s| ensures s[i] != ':' {
      assert Numerals.IsDigit(s[i]);
    }
  }

  /** Splitting at the first colon: a colon-free prefix is determined by the string. */
  lemma FirstColonSplit(a1: string, b1: string, a2: string, b2: string)
    requires ':' !in a1 && ':' !in a2
    requires |b1| > 0 && b1[0] == ':' && |b2| > 0 && b2[0] == ':'
    requires a1 + b1 == a2 + b2
    ensures a1 == a2 && b1 == b2
  {
    var u := a1 + b1;
    assert u[|a1|] == ':' && u[|a2|] == ':';
    assert forall i :: 0 <= i < |a1| ==> u[i] == a1[i] != ':';
    assert forall i :: 0 <= i < |a2| ==> u[i] == a2[i] != ':';
    assert |a1| == |a2|;
    assert a1 == u[..|a1|] && a2 == u[..|a2|];
    assert b1 == u[|a1|..] && b2 == u[|a2|..];
  }

  /** Splitting at the last colon: a colon-free suffix is determined by the string. */
  lemma LastColonSplit(a1: string, t1: string, a2: string, t2: string)
    requires ':' !in t1 && ':' !in t2
    requires a1 + [':'] + t1 == a2 + [':'] + t2
    ensures a1 == a2 && t1 == t2
  {
    var u := a1 + [':'] + t1;
    assert u[|a1|] == ':' && u[|a2|] == ':';
    assert forall i :: |a1| < i < |u| ==> u[i] == t1[i - |a1| - 1] != ':';
    assert forall i :: |a2| < i < |u| ==> u[i] == t2[i - |a2| - 1] != ':';
    assert |a1| == |a2|;
    assert a1 == u[..|a1|] && a2 == u[..|a2|];
    assert t1 == u[|a1| + 1..] && t2 == u[|a2| + 1..];
  }

  lemma PortTextHasNoColon(port: int)
    ensures ':' !in Numerals.IntToString(port) + "/v2"
  {
    var n := Numerals.IntToString(port);
    if port < 0 {
      NoColonInDigits(Numerals.NatToString(-port));
      assert n == "-" + Numerals.NatToString(-port);
    } else {
      NoColonInDigits(n);
    }
  }

  /**
   * The base URL determines protocol, host and port: two configurations share
   * it exactly when those three fields agree (for a protocol without ':'; the
   * host may contain colons, the port is found after the last one).
   */
  lemma BaseUrlDeterminesEndpoint(c1: GNS3Config, c2: GNS3Config)
    requires ':' !in c1.protocol && ':' !in c2.protocol
    ensures BaseUrl(c1) == BaseUrl(c2) <==>
              c1.protocol == c2.protocol && c1.host == c2.host && c1.port == c2.port
  {
    if BaseUrl(c1) == BaseUrl(c2) {
      var n1, n2 := Numerals.IntToString(c1.port), Numerals.IntToString(c2.port);
      var r1, r2 := c1.host + [':'] + (n1 + "/v2"), c2.host + [':'] + (n2 + "/v2");
      assert BaseUrl(c1) == c1.protocol + (":" + "//" + r1);
      assert BaseUrl(c2) == c2.protocol + (":" + "//" + r2);
      FirstColonSplit(c1.protocol, ":" + "//" + r1, c2.protocol, ":" + "//" + r2);
      assert r1 == (":" + "//" + r1)[3..];
      assert r2 == (":" + "//" + r2)[3..];
      PortTextHasNoColon(c1.port);
      PortTextHasNoColon(c2.port);
      LastColonSplit(c1.host, n1 + "/v2", c2.host, n2 + "/v2");
      assert n1 == (n1 + "/v2")[..|n1|];
      assert n2 == (n2 + "/v2")[..|n2|];
      Numerals.IntToStringInjective(c1.port, c2.port);
    }
  }

  /** With every default in place the client talks to the local server on port 3080. */
  lemma DefaultBaseUrl()
    ensures BaseUrl(Defaults()) == "http://localhost:3080/v2"
  {
    assert Numerals.NatToString(3) == "3";
    assert Numerals.NatToString(30) == "30";
    assert Numerals.NatToString(308) == "308";
    assert Numerals.NatToString(3080) == "3080";
  }

  // ---------------------------------------------------------------------------
  // load_config

  /** A successful `load_config` takes each field from the value chosen for it. */
  lemma LoadedFields(env: Environment, document: Option<Json>)
    requires LoadConfig(env, document).Success?
    ensures Section(document).Success? && Section(document).value.JObject?
    ensures var data, c := Section(document).value.fields, LoadConfig(env, document).value;
      && c.host == PyStr(Chosen(env, "GNS3_HOST", data, "host", JStr("localhost")))
      && ToInt(Chosen(env, "GNS3_PORT", data, "port", JInt(3080))) == Success(c.port)
      && c.protocol == PyStr(Chosen(env, "GNS3_PROTOCOL", data, "protocol", JStr("http")))
      && c.verifySsl == IsTrueText(PyStr(Chosen(env, "GNS3_VERIFY_SSL", data, "verify_ssl", JBool(true))))
      && ToInt(Chosen(env, "GNS3_TIMEOUT", data, "timeout", JInt(30))) == Success(c.timeout)
      && c.authRequired == IsTrueText(PyStr(Chosen(env, "GNS3_AUTH_REQUIRED", data, "auth_required", JBool(false))))
      && c.username == EnvGet(env, "GNS3_USERNAME") && c.password == EnvGet(env, "GNS3_PASSWORD")
  {
  }

  /** The file `{"gns3": data}` contributes exactly `data`. */
  lemma SectionOf(data: Dict<string, Json>)
    ensures Section(Some(JObject([("gns3", JObject(data))]))) == Success(JObject(data))
  {
    var fields := [("gns3", JObject(data))];
    assert Lookup(fields, "gns3") == Some(JObject(data));
  }

  /** `str(True).lower()` and `str(False).lower()`. */
  lemma BoolTexts()
    ensures IsTrueText(PyStr(JBool(true))) && !IsTrueText(PyStr(JBool(false)))
  {
    assert Lower("True") == "true";
    assert Lower("False") == "false";
  }

  /** Nothing in the environment and no file: every field has its default. */
  lemma DefaultsWhenNothingIsSet()
    ensures LoadConfig(map[], None) == Success(Defaults())
  {
    assert Lower("True") == "true";
    assert Lower("False") == "false";
  }

  /** A file without a "gns3" member behaves like no file at all. */
  lemma MissingSectionIsIgnored(env: Environment, fields: Dict<string, Json>)
    requires !HasKey(fields, "gns3")
    ensures LoadConfig(env, Some(JObject(fields))) == LoadConfig(env, None)
  {
  }
  /** Only the "gns3" member of the file is consulted: files with the same section load alike. */
  lemma OnlySectionMatters(env: Environment, d1: Option<Json>, d2: Option<Json>)
    requires Section(d1) == Section(d2)
    ensures LoadConfig(env, d1) == LoadConfig(env, d2)
  {
  }


  /**
   * An environment variable fixes its field whatever the file says, and the
   * credentials never depend on the file.
   */
  lemma EnvironmentOverridesFile(env: Environment, d1: Option<Json>, d2: Option<Json>)
    requires LoadConfig(env, d1).Success? && LoadConfig(env, d2).Success?
    ensures var c1, c2 := LoadConfig(env, d1).value, LoadConfig(env, d2).value;
      && ("GNS3_HOST" in env ==> c1.host == c2.host == env["GNS3_HOST"])
      && ("GNS3_PORT" in env ==> c1.port == c2.port && ToInt(JStr(env["GNS3_PORT"])) == Success(c1.port))
      && ("GNS3_PROTOCOL" in env ==> c1.protocol == c2.protocol == env["GNS3_PROTOCOL"])
      && ("GNS3_VERIFY_SSL" in env ==> c1.verifySsl == c2.verifySsl == IsTrueText(env["GNS3_VERIFY_SSL"]))
      && ("GNS3_TIMEOUT" in env ==> c1.timeout == c2.timeout && ToInt(JStr(env["GNS3_TIMEOUT"])) == Success(c1.timeout))
      && ("GNS3_AUTH_REQUIRED" in env ==> c1.authRequired == c2.authRequired == IsTrueText(env["GNS3_AUTH_REQUIRED"]))
      && c1.username == c2.username && c1.password == c2.password
  {
    LoadedFields(env, d1);
    LoadedFields(env, d2);
  }

  /**
   * Where the environment is silent, a value in the file's "gns3" section is
   * used, whatever else the file holds: host and protocol as its `str()`, port and timeout as its `int()`,
   * the flags as its `str()` compared with "true" case-insensitively. Values
   * of the field's own JSON type are used as they are.
   */
  lemma FileOverridesDefault(env: Environment, fields: Dict<string, Json>, data: Dict<string, Json>)
    requires Lookup(fields, "gns3") == Some(JObject(data))
    requires LoadConfig(env, Some(JObject(fields))).Success?
    ensures var c := LoadConfig(env, Some(JObject(fields))).value;
      && ("GNS3_HOST" !in env && HasKey(data, "host") ==> c.host == PyStr(Lookup(data, "host").value))
      && ("GNS3_PORT" !in env && HasKey(data, "port") ==> ToInt(Lookup(data, "port").value) == Success(c.port))
      && ("GNS3_PROTOCOL" !in env && HasKey(data, "protocol") ==> c.protocol == PyStr(Lookup(data, "protocol").value))
      && ("GNS3_VERIFY_SSL" !in env && HasKey(data, "verify_ssl") ==>
            c.verifySsl == IsTrueText(PyStr(Lookup(data, "verify_ssl").value)))
      && ("GNS3_TIMEOUT" !in env && HasKey(data, "timeout") ==> ToInt(Lookup(data, "timeout").value) == Success(c.timeout))
      && ("GNS3_AUTH_REQUIRED" !in env && HasKey(data, "auth_required") ==>
            c.authRequired == IsTrueText(PyStr(Lookup(data, "auth_required").value)))
    ensures var c := LoadConfig(env, Some(JObject(fields))).value;
      && (forall h :: "GNS3_HOST" !in env && Lookup(data, "host") == Some(JStr(h)) ==> c.host == h)
      && (forall p :: "GNS3_PORT" !in env && Lookup(data, "port") == Some(JInt(p)) ==> c.port == p)
      && (forall p :: "GNS3_PROTOCOL" !in env && Lookup(data, "protocol") == Some(JStr(p)) ==> c.protocol == p)
      && (forall b :: "GNS3_VERIFY_SSL" !in env && Lookup(data, "verify_ssl") == Some(JBool(b)) ==> c.verifySsl == b)
      && (forall t :: "GNS3_TIMEOUT" !in env && Lookup(data, "timeout") == Some(JInt(t)) ==> c.timeout == t)
      && (forall b :: "GNS3_AUTH_REQUIRED" !in env && Lookup(data, "auth_required") == Some(JBool(b)) ==> c.authRequired == b)
  {
    LoadedFields(env, Some(JObject(fields)));
    BoolTexts();
  }

  /** `int("8080")`. */
  lemma PortText8080()
    ensures ToInt(JStr("8080")) == Success(8080)
  {
    Numerals.IntRoundTrip(8080);
    assert Numerals.IntToString(8080) == "8080";
  }

  /** The lookups in the section `{"port": "8080", "verify_ssl": "false"}`. */
  lemma TextSectionLookups(data: Dict<string, Json>)
    requires data == [("port", JStr("8080")), ("verify_ssl", JStr("false"))]
    ensures Lookup(data, "port") == Some(JStr("8080")) && Lookup(data, "verify_ssl") == Some(JStr("false"))
    ensures !HasKey(data, "host") && !HasKey(data, "protocol") && !HasKey(data, "timeout") && !HasKey(data, "auth_required")
  {
    assert |"port"| != |"verify_ssl"|;
    assert |"host"| == |"port"| && "host"[0] != "port"[0];
    assert |"protocol"| != |"port"| && |"protocol"| != |"verify_ssl"|;
    assert |"timeout"| != |"port"| && |"timeout"| != |"verify_ssl"|;
    assert |"auth_required"| != |"port"| && |"auth_required"| != |"verify_ssl"|;
  }

  /**
   * The working step of FileTextValuesExample: the same configuration, with the
   * environment and the section passed as parameters so that the verifier does
   * not unfold them as literals.
   */
  lemma TextSectionConfig(env: Environment, data: Dict<string, Json>)
    requires env == map[] && data == [("port", JStr("8080")), ("verify_ssl", JStr("false"))]
    ensures LoadConfig(env, Some(JObject([("gns3", JObject(data))])))
              == Success(GNS3Config("localhost", 8080, "http", false, 30, false, None, None))
  {
    SectionOf(data);
    TextSectionLookups(data);
    PortText8080();
    assert Chosen(env, "GNS3_PORT", data, "port", JInt(3080)) == JStr("8080");
    assert Chosen(env, "GNS3_TIMEOUT", data, "timeout", JInt(30)) == JInt(30);
    assert Chosen(env, "GNS3_HOST", data, "host", JStr("localhost")) == JStr("localhost");
    assert Chosen(env, "GNS3_PROTOCOL", data, "protocol", JStr("http")) == JStr("http");
    assert Chosen(env, "GNS3_VERIFY_SSL", data, "verify_ssl", JBool(true)) == JStr("false");
    assert Chosen(env, "GNS3_AUTH_REQUIRED", data, "auth_required", JBool(false)) == JBool(false);
    assert Lower("false") == "false";
    BoolTexts();
  }

  /** A file giving the port as the text "8080" and verify_ssl as the text "false". */
  lemma FileTextValuesExample()
    ensures LoadConfig(map[], Some(JObject([("gns3", JObject([("port", JStr("8080")), ("verify_ssl", JStr("false"))]))])))
              == Success(GNS3Config("localhost", 8080, "http", false, 30, false, None, None))
  {
    TextSectionConfig(map[], [("port", JStr("8080")), ("verify_ssl", JStr("false"))]);
  }

  /** A field that neither the environment nor the file's "gns3" section sets keeps its default, whatever else the file holds. */
  lemma SilentFieldKeepsDefault(env: Environment, fields: Dict<string, Json>, data: Dict<string, Json>)
    requires Lookup(fields, "gns3") == Some(JObject(data))
    requires LoadConfig(env, Some(JObject(fields))).Success?
    ensures var c := LoadConfig(env, Some(JObject(fields))).value;
      && ("GNS3_HOST" !in env && !HasKey(data, "host") ==> c.host == "localhost")
      && ("GNS3_PORT" !in env && !HasKey(data, "port") ==> c.port == 3080)
      && ("GNS3_PROTOCOL" !in env && !HasKey(data, "protocol") ==> c.protocol == "http")
      && ("GNS3_VERIFY_SSL" !in env && !HasKey(data, "verify_ssl") ==> c.verifySsl)
      && ("GNS3_TIMEOUT" !in env && !HasKey(data, "timeout") ==> c.timeout == 30)
      && ("GNS3_AUTH_REQUIRED" !in env && !HasKey(data, "auth_required") ==> !c.authRequired)
  {
    LoadedFields(env, Some(JObject(fields)));
    BoolTexts();
  }

  /** A port written by `str()` into the environment is read back by `int()`. */
  lemma PortFromEnvironment(env: Environment, document: Option<Json>, port: int)
    requires "GNS3_PORT" in env && env["GNS3_PORT"] == Numerals.IntToString(port)
    requires LoadConfig(env, document).Success?
    ensures LoadConfig(env, document).value.port == port
  {
    LoadedFields(env, document);
    Numerals.IntRoundTrip(port);
  }

  /**
   * The letter-by-letter test for one string: `s.lower() == "true"` exactly
   * for the four letters of "true", each in either case. TrueTextIsCaseInsensitive
   * applies it to any string and to the sample texts.
   */
  lemma TrueTextShape(s: string)
    ensures IsTrueText(s) <==>
              |s| == 4 && s[0] in "tT" && s[1] in "rR" && s[2] in "uU" && s[3] in "eE"
  {
    var l := Lower(s);
    if IsTrueText(s) {
      assert l[0] == 't' && l[1] == 'r' && l[2] == 'u' && l[3] == 'e';
    }
    if |s| == 4 && s[0] in "tT" && s[1] in "rR" && s[2] in "uU" && s[3] in "eE" {
      assert l == "true";
    }
  }

  /**
   * The boolean fields are true exactly for the four-letter text "true" in any
   * mix of cases: "TRUE" and "True" give true, "yes", "1" and "false" give false.
   */
  lemma TrueTextIsCaseInsensitive(s: string)
    ensures IsTrueText(s) <==>
              |s| == 4 && s[0] in "tT" && s[1] in "rR" && s[2] in "uU" && s[3] in "eE"
    ensures IsTrueText("TRUE") && IsTrueText("True") && IsTrueText("true")
    ensures !IsTrueText("yes") && !IsTrueText("1") && !IsTrueText("false")
  {
    TrueTextShape(s);
    TrueTextShape("TRUE");
    TrueTextShape("True");
    TrueTextShape("true");
    TrueTextShape("yes");
    TrueTextShape("1");
    TrueTextShape("false");
  }
}
