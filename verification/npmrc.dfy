/**
 * The registry-credentials file `.npmrc`: the text the action writes, and a
 * line-by-line reading of it (JavaScript's `split('\n')`) to state its shape.
 */
module Npmrc {
  import opened JsValues

  /** The registry URL is kept as its own constant; the line is the scope assignment to it. */
  const RegistryUrl: string := "https://npm.fontawesome.com/"
  const RegistryLine: string := "@fortawesome:registry=" + RegistryUrl
  const AuthPrefix: string := "//npm.fontawesome.com/:_authToken="

  /** The file contents for the `fontawesome_token` input `token`, interpolated as a
      template literal, so an absent token is written as the text `undefined`. */
  function NpmrcText(token: JsValue): (r: string)
    ensures RegistryLine + "\n" <= r
    ensures |r| == |RegistryLine| + 1 + |AuthPrefix| + |Interpolate(token)|
    ensures r[|r| - |Interpolate(token)|..] == Interpolate(token)
  {
    RegistryLine + "\n" + AuthPrefix + Interpolate(token)
  }

  /** `s.split('\n')`: the pieces between line feeds; the result is never empty. */
  function SplitLines(s: string): (r: seq<string>)
    ensures |r| >= 1
    ensures '\n' !in s ==> r == [s]
    decreases |s|
  {
    if s == [] then [""]
    else
      var rest := SplitLines(s[1..]);
      assert s == [s[0]] + s[1..];
      if s[0] == '\n' then [""] + rest else [[s[0]] + rest[0]] + rest[1..]
  }

  /** A line without a line feed, followed by one, splits off as the first piece. */
  lemma {:induction false} SplitAfterLine(line: string, tail: string)
    requires '\n' !in line
    ensures SplitLines(line + "\n" + tail) == [line] + SplitLines(tail)
    decreases |line|
  {
    if line == [] {
      assert line + "\n" + tail == ['\n'] + tail;
      assert (['\n'] + tail)[1..] == tail;
    } else {
      var s := line + "\n" + tail;
      assert s[0] == line[0];
      assert s[1..] == line[1..] + "\n" + tail;
      SplitAfterLine(line[1..], tail);
      assert [line[0]] + line[1..] == line;
    }
  }

  /** When the token holds no line feed, the file is exactly two lines, the registry line and
      the auth line, with no trailing empty line. */
  lemma NpmrcHasTwoLines(token: JsValue)
    requires '\n' !in Interpolate(token)
    ensures SplitLines(NpmrcText(token)) == [RegistryLine, AuthPrefix + Interpolate(token)]
  {
    var auth := AuthPrefix + Interpolate(token);
    assert '\n' !in RegistryLine by {
      assert '\n' !in "@fortawesome:registry=" && '\n' !in RegistryUrl;
    }
    assert '\n' !in auth by {
      assert forall i :: 0 <= i < |auth| ==> auth[i] != '\n' by {
        forall i | 0 <= i < |auth|
          ensures auth[i] != '\n'
        {
          if i >= |AuthPrefix| {
            assert auth[i] == Interpolate(token)[i - |AuthPrefix|];
          }
        }
      }
    }
    assert NpmrcText(token) == RegistryLine + "\n" + auth;
    SplitAfterLine(RegistryLine, auth);
  }
}
