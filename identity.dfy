/** A user's sending identity, and the rule that turns optional first and last
    names into the identity's display name. */
module IdentityBean {
  import opened Outcomes

  /** The sort order of the identity the connector creates. */
  const DefaultIdentitySortOrder: int := 0

  datatype Identity = Identity(email: string, name: string, sortOrder: int)

  /** The display name: both names separated by one space, else the one that
      is present, else the fallback address. */
  function ToDisplayName(firstname: Option<string>, surname: Option<string>, fallbackEmailAddress: string): (name: string)
    ensures firstname.Some? ==> firstname.value <= name
    ensures surname.Some? ==> |surname.value| <= |name| && name[|name| - |surname.value|..] == surname.value
    ensures firstname.Some? && surname.Some? ==> |name| == |firstname.value| + 1 + |surname.value| && name[|firstname.value|] == ' '
    ensures firstname.None? && surname.None? ==> name == fallbackEmailAddress
  {
    if firstname.Some? && surname.Some? then firstname.value + " " + surname.value
    else if firstname.Some? then firstname.value
    else if surname.Some? then surname.value
    else fallbackEmailAddress
  }

  /** The values of the present names, in order. */
  function PresentNames(names: seq<Option<string>>): (r: seq<string>)
    ensures |r| <= |names|
    ensures forall x :: x in r <==> Some(x) in names
  {
    if names == [] then []
    else
      assert names == [names[0]] + names[1..];
      (if names[0].Some? then [names[0].value] else []) + PresentNames(names[1..])
  }

  /** Words joined by single spaces. */
  function JoinWords(words: seq<string>): string {
    if words == [] then ""
    else if |words| == 1 then words[0]
    else words[0] + " " + JoinWords(words[1..])
  }

  /** The display name is the present names joined by single spaces, or the
      fallback address when no name is present. */
  lemma DisplayNameJoinsPresentNames(firstname: Option<string>, surname: Option<string>, fallbackEmailAddress: string)
    ensures var present := PresentNames([firstname, surname]);
            ToDisplayName(firstname, surname, fallbackEmailAddress) ==
            (if present == [] then fallbackEmailAddress else JoinWords(present))
  {
    assert [firstname, surname][1..] == [surname];
    assert [surname][1..] == [];
  }

  /** The four cases of the display-name rule. */
  lemma DisplayNameCases(first: string, sur: string, email: string)
    ensures ToDisplayName(Some(first), Some(sur), email) == first + " " + sur
    ensures ToDisplayName(Some(first), None, email) == first
    ensures ToDisplayName(None, Some(sur), email) == sur
    ensures ToDisplayName(None, None, email) == email
  {
  }

  /** With a first name fixed, the surname can be read back from the display name. */
  lemma DisplayNameDeterminesSurname(first: string, sur1: string, sur2: string, email: string)
    requires ToDisplayName(Some(first), Some(sur1), email) == ToDisplayName(Some(first), Some(sur2), email)
    ensures sur1 == sur2
  {
    var n := first + " ";
    assert n + sur1 == n + sur2;
    assert sur1 == (n + sur1)[|n|..];
    assert sur2 == (n + sur2)[|n|..];
  }

  /** Two identities are equal exactly when name, email and sort order are. */
  lemma IdentityEquality(a: Identity, b: Identity)
    ensures a == b <==> a.name == b.name && a.email == b.email && a.sortOrder == b.sortOrder
  {
  }
}
