/** Request path templates such as "/repos/{org}/{repo}/issues": the runtime fills each
    `{name}` from the context of the partition being synced. */
module PathTemplate {

  /** A template spelled piece by piece: literal text, or a `{name}` placeholder. */
  datatype Template =
    | End
    | Text(text: string, rest: Template)
    | Hole(name: string, rest: Template)

  function Render(t: Template): string
  {
    match t
    case End => ""
    case Text(s, rest) => s + Render(rest)
    case Hole(n, rest) => "{" + n + "}" + Render(rest)
  }

  /** The names of the template's holes. */
  function Names(t: Template): set<string>
  {
    match t
    case End => {}
    case Text(_, rest) => Names(rest)
    case Hole(n, rest) => {n} + Names(rest)
  }

  predicate NoBraces(s: string)
  {
    forall i :: 0 <= i < |s| ==> s[i] != '{' && s[i] != '}'
  }

  /** No brace inside literal text or a placeholder name. */
  predicate WellFormed(t: Template)
  {
    match t
    case End => true
    case Text(s, rest) => NoBraces(s) && WellFormed(rest)
    case Hole(n, rest) => NoBraces(n) && WellFormed(rest)
  }

  /** The first index at or after `i` holding a brace, or |s|. */
  function NameEnd(s: string, i: nat): (j: nat)
    requires i <= |s|
    ensures i <= j <= |s|
    ensures forall k :: i <= k < j ==> s[k] != '{' && s[k] != '}'
    ensures j < |s| ==> s[j] == '{' || s[j] == '}'
    decreases |s| - i
  {
    if i == |s| || s[i] == '{' || s[i] == '}' then i else NameEnd(s, i + 1)
  }

  /** The placeholders of a path string: every `{name}` whose name holds no brace. */
  function Placeholders(s: string): set<string>
    decreases |s|
  {
    if s == [] then {}
    else if s[0] == '{' then
      var j := NameEnd(s, 1);
      if j < |s| && s[j] == '}' then {s[1..j]} + Placeholders(s[j + 1..])
      else Placeholders(s[j..])
    else Placeholders(s[1..])
  }

  lemma {:induction false} PlaceholdersSkipText(s: string, rest: string)
    requires NoBraces(s)
    ensures Placeholders(s + rest) == Placeholders(rest)
    decreases |s|
  {
    if s != [] {
      var t := s + rest;
      assert t[0] == s[0] && t[0] != '{';
      assert t[1..] == s[1..] + rest;
      assert Placeholders(t) == Placeholders(t[1..]);
      PlaceholdersSkipText(s[1..], rest);
    } else {
      assert s + rest == rest;
    }
  }

  lemma PlaceholdersReadHole(n: string, rest: string)
    requires NoBraces(n)
    ensures Placeholders("{" + n + "}" + rest) == {n} + Placeholders(rest)
  {
    var s := "{" + n + "}" + rest;
    var j := NameEnd(s, 1);
    assert forall k :: 1 <= k < 1 + |n| ==> s[k] == n[k - 1];
    assert s[1 + |n|] == '}';
    assert j == 1 + |n|;
    assert s[1..j] == n;
    assert s[j + 1..] == rest;
  }

  /** Reading the placeholders back from a rendered template yields exactly its holes. */
  lemma {:induction false} PlaceholdersOfRender(t: Template)
    requires WellFormed(t)
    ensures Placeholders(Render(t)) == Names(t)
  {
    match t
    case End =>
    case Text(s, rest) =>
      PlaceholdersSkipText(s, Render(rest));
      PlaceholdersOfRender(rest);
    case Hole(n, rest) =>
      PlaceholdersReadHole(n, Render(rest));
      PlaceholdersOfRender(rest);
  }
}
