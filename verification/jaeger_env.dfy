/**
 * The Jaeger exporter's environment configuration: the process (service name
 * and tracer-level tags) read from JAEGER_SERVICE_NAME and JAEGER_TAGS, and
 * the rule by which it overrides the configured process.
 *
 * The environment is a map; a variable it lacks reads as the empty string.
 * Go's strconv.ParseFloat is the opaque predicate `isFloat`.
 */
module JaegerEnv {
  import opened Wrappers
  import opened GoStrings
  import opened GoStrconv

  type Env = map<string, string>

  /** os.Getenv. */
  function Getenv(env: Env, name: string): string {
    if name in env then env[name] else ""
  }

  const ServiceNameVar: string := "JAEGER_SERVICE_NAME"
  const TagsVar: string := "JAEGER_TAGS"

  /** A tag value; a float keeps the text it was parsed from. */
  datatype Value =
    | Int64(i: int)
    | Float64(literal: string)
    | Bool(b: bool)
    | String(s: string)

  datatype KeyValue = KeyValue(key: string, value: Value)

  /** The process the exporter reports spans under. */
  datatype Process = Process(serviceName: string, tags: seq<KeyValue>)

  /**
   * The typed value of a tag: an integer if it parses as one, else a float,
   * else a boolean, else the string itself.
   */
  function ParseValue(str: string, isFloat: string -> bool): (r: Value)
    ensures r.Int64? <==> ParseInt(str).Some?
    ensures r.Int64? ==> ParseInt(str) == Some(r.i)
    ensures r.Float64? <==> ParseInt(str).None? && isFloat(str)
    ensures r.Bool? <==> ParseInt(str).None? && !isFloat(str) && ParseBool(str).Some?
    ensures r.Bool? ==> ParseBool(str) == Some(r.b)
    ensures r.Float64? || r.String? ==> r == Float64(str) || r == String(str)
  {
    match ParseInt(str)
    case Some(n) => Int64(n)
    case None =>
      if isFloat(str) then Float64(str)
      else match ParseBool(str)
        case Some(b) => Bool(b)
        case None => String(str)
  }

  /** Every formatted 64-bit integer is an integer tag, never a float, boolean or string one. */
  lemma ParseValueOfInteger(n: int, isFloat: string -> bool)
    requires MinInt64 <= n <= MaxInt64
    ensures ParseValue(FormatInt(n), isFloat) == Int64(n)
  {
    ParseFormatInt(n);
  }

  /**
   * "1" and "0" are among ParseBool's spellings, but ParseValue tries the
   * integer parser first, so those two spellings never reach ParseBool and
   * never yield a boolean tag.
   */
  lemma DigitBooleansAreIntegers(isFloat: string -> bool)
    ensures ParseValue("1", isFloat) == Int64(1)
    ensures ParseValue("0", isFloat) == Int64(0)
  {
    ParseFormatInt(1);
    ParseFormatInt(0);
  }

  /** A formatted boolean that the float parser rejects is a boolean tag. */
  lemma ParseValueOfBoolean(b: bool, isFloat: string -> bool)
    requires !isFloat(FormatBool(b))
    ensures ParseValue(FormatBool(b), isFloat) == Bool(b)
  {
    ParseFormatBool(b);
  }

  /** parseKeyValue: the key is kept as given and the value is typed. */
  function ParseKeyValue(k: string, v: string, isFloat: string -> bool): (t: KeyValue)
    ensures t.key == k
    ensures t.value.Int64? <==> ParseInt(v).Some?
    ensures t.value.Int64? ==> ParseInt(v) == Some(t.value.i)
    ensures t.value.Bool? ==> ParseInt(v).None? && !isFloat(v) && ParseBool(v) == Some(t.value.b)
    ensures !t.value.Int64? && !t.value.Bool? ==> t.value == Float64(v) || t.value == String(v)
  {
    KeyValue(k, ParseValue(v, isFloat))
  }

  /** A value of the form `${...}`: a reference to an environment variable. */
  predicate IsReference(v: string) {
    HasPrefix(v, "${") && HasSuffix(v, "}")
  }

  /** A reference is at least `${}`. */
  lemma ReferenceLength(v: string)
    requires IsReference(v)
    ensures |v| >= 3
  {
    assert v[1] == "${"[1];
    assert v[|v| - 1] == v[|v| - 1..][0];
  }

  /** What is between `${` and `}`. */
  function ReferenceBody(v: string): string
    requires IsReference(v)
  {
    ReferenceLength(v);
    v[2..|v| - 1]
  }

  /** A reference names its variable and its default, separated by `:`. */
  predicate Resolvable(v: string) {
    IsReference(v) ==> ':' in ReferenceBody(v)
  }

  /**
   * A reference `${e:d}` becomes the value of `e`, or `d` when `e` is empty
   * or unset; any other value is kept as it is.
   */
  function Resolve(v: string, env: Env): (r: string)
    requires Resolvable(v)
    ensures !IsReference(v) ==> r == v
  {
    if !IsReference(v) then v
    else
      var ed := SplitOnce(ReferenceBody(v), ':');
      var e, d := ed[0], ed[1];
      var fromEnv := Getenv(env, e);
      if fromEnv == "" && d != "" then d else fromEnv
  }

  /**
   * The reference notation: `${e:d}` reads variable `e`, and falls back to the
   * default `d` exactly when `e` is empty or unset. The default may contain `:`.
   */
  lemma ResolveReference(e: string, d: string, env: Env)
    requires ':' !in e
    ensures Resolvable("${" + e + ":" + d + "}")
    ensures Resolve("${" + e + ":" + d + "}", env) == if Getenv(env, e) != "" then Getenv(env, e) else d
  {
    var v := "${" + e + ":" + d + "}";
    assert ReferenceBody(v) == e + [':'] + d;
    SplitOnceUnique(e, d, ':');
  }

  /** A tag can be parsed from the piece: it has an `=`, and a reference value names a default. */
  predicate WellFormedPiece(p: string) {
    '=' in p && Resolvable(TrimSpace(SplitOnce(p, '=')[1]))
  }

  /** The tag one comma-separated piece `key=value` stands for. */
  function TagOf(p: string, env: Env, isFloat: string -> bool): (t: KeyValue)
    requires WellFormedPiece(p)
    ensures '=' !in t.key
    ensures t.key == [] || (!IsSpace(t.key[0]) && !IsSpace(t.key[|t.key| - 1]))
  {
    var field := SplitOnce(p, '=');
    var k := TrimSpace(field[0]);
    TrimSpaceAddsNothing(field[0], '=');
    ParseKeyValue(k, Resolve(TrimSpace(field[1]), env), isFloat)
  }

  /** Every comma-separated piece is well formed. */
  predicate WellFormedTags(s: string) {
    forall i {:trigger WellFormedPiece(Split(s, ',')[i])} :: 0 <= i < |Split(s, ',')| ==> WellFormedPiece(Split(s, ',')[i])
  }

  /** The tags a JAEGER_TAGS value stands for: one per comma-separated piece, in order. */
  function ParsedTags(s: string, env: Env, isFloat: string -> bool): (tags: seq<KeyValue>)
    requires WellFormedTags(s)
    ensures |tags| == |Split(s, ',')|
    ensures forall i :: 0 <= i < |tags| ==> tags[i] == TagOf(Split(s, ',')[i], env, isFloat)
  {
    var pieces := Split(s, ',');
    seq(|pieces|, i requires 0 <= i < |pieces| => TagOf(pieces[i], env, isFloat))
  }

  /** Joining well-formed pieces with commas gives back one tag per piece, in order. */
  lemma TagsOfJoinedPieces(pieces: seq<string>, env: Env, isFloat: string -> bool)
    requires pieces != []
    requires forall i :: 0 <= i < |pieces| ==> ',' !in pieces[i] && WellFormedPiece(pieces[i])
    ensures WellFormedTags(Join(pieces, ','))
    ensures var tags := ParsedTags(Join(pieces, ','), env, isFloat);
            |tags| == |pieces| && forall i :: 0 <= i < |pieces| ==> tags[i] == TagOf(pieces[i], env, isFloat)
  {
    SplitJoin(pieces, ',');
  }

  /**
   * A piece splits at its first `=` only; key and value are trimmed, and a
   * value that is not a reference is parsed as it stands.
   */
  lemma TagOfPlainPiece(k: string, v: string, env: Env, isFloat: string -> bool)
    requires '=' !in k && !IsReference(TrimSpace(v))
    ensures WellFormedPiece(k + "=" + v)
    ensures TagOf(k + "=" + v, env, isFloat) == KeyValue(TrimSpace(k), ParseValue(TrimSpace(v), isFloat))
  {
    SplitOnceUnique(k, v, '=');
  }

  /** A piece `k=${e:d}` takes its value from the environment, or from the default. */
  lemma TagOfReferencePiece(k: string, e: string, d: string, env: Env, isFloat: string -> bool)
    requires '=' !in k && ':' !in e
    ensures WellFormedPiece(k + "=" + ("${" + e + ":" + d + "}"))
    ensures var r := if Getenv(env, e) != "" then Getenv(env, e) else d;
            TagOf(k + "=" + ("${" + e + ":" + d + "}"), env, isFloat) == KeyValue(TrimSpace(k), ParseValue(r, isFloat))
  {
    var v := "${" + e + ":" + d + "}";
    SplitOnceUnique(k, v, '=');
    TrimSpaceOfTrimmed(v);
    ResolveReference(e, d, env);
  }

  /** parseTags: a loop over the comma-separated pieces, appending one tag per piece. */
  method ParseTags(sTags: string, env: Env, isFloat: string -> bool) returns (tags: seq<KeyValue>)
    requires WellFormedTags(sTags)
    ensures tags == ParsedTags(sTags, env, isFloat)
  {
    var pairs := Split(sTags, ',');
    tags := [];
    for i := 0 to |pairs|
      invariant |tags| == i
      invariant forall j :: 0 <= j < i ==> WellFormedPiece(pairs[j]) && tags[j] == TagOf(pairs[j], env, isFloat)
    {
      assert WellFormedPiece(pairs[i]);
      var tag := ParsePair(pairs[i], env, isFloat);
      tags := tags + [tag];
    }
  }

  /** One iteration of parseTags: split at the first `=`, trim, resolve a reference, type the value. */
  method ParsePair(p: string, env: Env, isFloat: string -> bool) returns (tag: KeyValue)
    requires WellFormedPiece(p)
    ensures tag == TagOf(p, env, isFloat)
  {
    var field := SplitOnce(p, '=');
    var k, v := TrimSpace(field[0]), TrimSpace(field[1]);
    ghost var raw := v;
    if HasPrefix(v, "${") && HasSuffix(v, "}") {
      var ed := SplitOnce(ReferenceBody(v), ':');
      var e, d := ed[0], ed[1];
      v := Getenv(env, e);
      if v == "" && d != "" {
        v := d;
      }
    }
    assert v == Resolve(raw, env);
    tag := ParseKeyValue(k, v, isFloat);
  }

  /** JAEGER_TAGS is unset, or every piece of it is well formed. */
  predicate TagsConfigured(env: Env) {
    Getenv(env, TagsVar) != "" ==> WellFormedTags(Getenv(env, TagsVar))
  }

  /** ProcessFromEnv: the process the environment describes; fields whose variable is empty stay empty. */
  method ProcessFromEnv(env: Env, isFloat: string -> bool) returns (p: Process)
    requires TagsConfigured(env)
    ensures p.serviceName == Getenv(env, ServiceNameVar)
    ensures Getenv(env, TagsVar) == "" ==> p.tags == []
    ensures Getenv(env, TagsVar) != "" ==> p.tags == ParsedTags(Getenv(env, TagsVar), env, isFloat)
    ensures p.tags == [] <==> Getenv(env, TagsVar) == ""
  {
    p := Process("", []);
    var e := Getenv(env, ServiceNameVar);
    if e != "" {
      p := p.(serviceName := e);
    }
    e := Getenv(env, TagsVar);
    if e != "" {
      var tags := ParseTags(e, env, isFloat);
      p := p.(tags := tags);
    }
  }

  /** The exporter options the environment may override. */
  class Options {
    var process: Process

    constructor (process: Process)
      ensures this.process == process
    {
      this.process := process;
    }
  }

  /**
   * WithProcessFromEnv applied to `o`: the environment's service name and tags
   * replace the configured ones only where the environment provides them.
   */
  method WithProcessFromEnv(o: Options, env: Env, isFloat: string -> bool)
    requires TagsConfigured(env)
    modifies o
    ensures o.process.serviceName ==
              if Getenv(env, ServiceNameVar) != "" then Getenv(env, ServiceNameVar) else old(o.process.serviceName)
    ensures o.process.tags ==
              if Getenv(env, TagsVar) != "" then ParsedTags(Getenv(env, TagsVar), env, isFloat) else old(o.process.tags)
  {
    var p := ProcessFromEnv(env, isFloat);
    if p.serviceName != "" {
      o.process := o.process.(serviceName := p.serviceName);
    }
    if |p.tags| != 0 {
      o.process := o.process.(tags := p.tags);
    }
  }
}
