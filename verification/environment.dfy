/**
 * The process environment as one string-to-string map, read through the
 * `INPUT_<NAME>` convention of action inputs and written by the guarded setter.
 */
module Environment {
  import opened JsValues

  type Env = map<string, string>

  function Get(env: Env, key: string): Option<string> {
    if key in env then Some(env[key]) else None
  }

  /** `a` and `b` hold the same entry (or the same absence) under every key outside `keys`. */
  ghost predicate AgreeOutside(a: Env, b: Env, keys: set<string>) {
    forall k :: k !in keys ==> Get(a, k) == Get(b, k)
  }

  predicate IsLowerAscii(c: char) {
    'a' <= c <= 'z'
  }

  /** `toUpperCase` on one ASCII character. */
  function UpperChar(c: char): (u: char)
    ensures !IsLowerAscii(u)
    ensures IsLowerAscii(c) ==> u as int == c as int - 32
    ensures !IsLowerAscii(c) ==> u == c
  {
    if IsLowerAscii(c) then (c as int - 32) as char else c
  }

  /** `toUpperCase` on an ASCII string: each letter is raised, everything else is kept. */
  function Upper(s: string): (r: string)
    ensures |r| == |s|
    ensures forall i :: 0 <= i < |s| ==> r[i] == UpperChar(s[i])
    ensures forall i :: 0 <= i < |r| ==> !IsLowerAscii(r[i])
  {
    seq(|s|, i requires 0 <= i < |s| => UpperChar(s[i]))
  }

  const InputPrefix: string := "INPUT_"

  /** Keys under which action inputs are stored. */
  predicate IsInputKey(k: string) {
    InputPrefix <= k
  }

  /** The environment key `INPUT_${name.toUpperCase()}` that holds input `name`. */
  function InputKey(name: string): (key: string)
    ensures IsInputKey(key)
  {
    InputPrefix + Upper(name)
  }

  /** The key is the prefix followed by the name with each ASCII letter raised and every
      other character, `-` and `_` included, kept as it is. */
  lemma InputKeyShape(name: string)
    ensures |InputKey(name)| == |InputPrefix| + |name|
    ensures forall i :: 0 <= i < |name| ==> InputKey(name)[|InputPrefix| + i] == UpperChar(name[i])
    ensures forall i :: 0 <= i < |name| && !IsLowerAscii(name[i]) ==> InputKey(name)[|InputPrefix| + i] == name[i]
  {
  }

  /** The value of input `name`: `undefined` when its key is absent, otherwise the string. */
  function Input(env: Env, name: string): (v: JsValue)
    ensures v == Undefined <==> InputKey(name) !in env
    ensures v.Str? <==> InputKey(name) in env
    ensures v.Str? ==> v.s == env[InputKey(name)]
  {
    if InputKey(name) in env then Str(env[InputKey(name)]) else Undefined
  }

  /** What `getEnvVariable` hands back: a value, or the fatal exit with its message. */
  datatype Read = Value(v: JsValue) | Fatal(message: string)

  function NotDefinedMessage(name: string): string {
    "'" + name + "' input variable is not defined"
  }

  /** `getEnvVariable(name, required)`: a required input that is missing or empty is fatal. */
  function GetEnvVariable(env: Env, name: string, required: bool): (r: Read)
    ensures r.Fatal? <==> required && Blank(Input(env, name))
    ensures r.Fatal? ==> r.message == NotDefinedMessage(name)
    ensures r.Value? ==> r.v == Input(env, name)
    ensures r.Value? && required ==> r.v.Str? && r.v.s != ""
  {
    var value := Input(env, name);
    if required && Blank(value) then Fatal(NotDefinedMessage(name)) else Value(value)
  }

  /** `setEnvVariable(name, value)`: writes `value.toString()` under `name` unless the
      value is blank, and touches nothing else. */
  function SetEnv(env: Env, name: string, v: JsValue): (r: Env)
    ensures Blank(v) ==> r == env
    ensures !Blank(v) ==> Get(r, name) == CallToString(v)
    ensures AgreeOutside(env, r, {name})
    ensures !IsInputKey(name) ==> forall n :: Input(r, n) == Input(env, n)
  {
    if Blank(v) then env else env[name := CallToString(v).value]
  }
}
