/** A domain contact, and the split of a mail address around its first '@'
    into the user name and the domain the contact API is addressed by. */
module ContactBean {
  import opened Outcomes
  import opened Beans

  /** String.indexOf for one character: the first position holding `c`, or -1. */
  function IndexOf(s: string, c: char): (i: int)
    ensures -1 <= i < |s|
    ensures i == -1 <==> c !in s
    ensures 0 <= i ==> s[i] == c && c !in s[..i]
    decreases |s|
  {
    if s == [] then -1
    else if s[0] == c then 0
    else
      var j := IndexOf(s[1..], c);
      assert s == [s[0]] + s[1..];
      if j == -1 then -1
      else
        assert s[..j + 1] == [s[0]] + s[1..][..j];
        j + 1
  }

  /** `email.substring(email.indexOf("@") + 1)`: the text after the first '@',
      or the whole address when it has none. */
  function ExtractDomainFromEmail(email: string): (domain: string)
    ensures |domain| <= |email| && domain == email[|email| - |domain|..]
    ensures '@' !in email ==> domain == email
    ensures '@' in email ==> |domain| < |email| && email[|email| - |domain| - 1] == '@'
  {
    email[IndexOf(email, '@') + 1..]
  }

  /** `email.substring(0, email.indexOf("@"))`: the text before the first '@';
      without an '@' the end index is -1 and substring throws. */
  function ExtractUsernameFromEmail(email: string): (username: Outcome<string>)
    ensures username.Thrown? <==> '@' !in email
    ensures username.Thrown? ==> username.error == StringIndexOutOfBounds
    ensures username.Value? ==> username.value <= email && |username.value| < |email| && email[|username.value|] == '@' && '@' !in username.value
  {
    var i := IndexOf(email, '@');
    if i < 0 then Thrown(StringIndexOutOfBounds) else Value(email[..i])
  }

  datatype Contact = Contact(emailAddress: string, firstname: Option<string>, surname: Option<string>) {

    /** The text after the address's first '@', or the whole address without one. */
    function GetDomain(): (domain: string)
      ensures |domain| <= |emailAddress| && domain == emailAddress[|emailAddress| - |domain|..]
      ensures '@' !in emailAddress ==> domain == emailAddress
    {
      ExtractDomainFromEmail(emailAddress)
    }

    /** The text before the address's first '@'; together with the domain it
        gives the address back. */
    function GetUsernameFromEmail(): (username: Outcome<string>)
      ensures username.Thrown? <==> '@' !in emailAddress
      ensures username.Value? ==> username.value + "@" + GetDomain() == emailAddress && '@' !in username.value
    {
      var username := ExtractUsernameFromEmail(emailAddress);
      if username.Thrown? then username
      else
        UsernameAndDomainRebuildEmail(emailAddress);
        username
    }

    /** The names sent when the contact is updated. */
    function GetContactNames(): (names: ContactNames)
      ensures Contact(emailAddress, names.firstname, names.surname) == this
    {
      ContactNames(firstname, surname)
    }
  }

  /** The two extractors split an address at its first '@': they give `u` and
      `d` exactly when the address is `u + "@" + d` and `u` holds no '@'. */
  lemma EmailSplitsAtFirstAt(email: string, u: string, d: string)
    ensures ExtractUsernameFromEmail(email) == Value(u) && ExtractDomainFromEmail(email) == d
            <==> email == u + "@" + d && '@' !in u
  {
    if email == u + "@" + d && '@' !in u {
      FirstAtAfterUsername(u, d);
      assert email[..|u|] == u && email[|u| + 1..] == d;
    }
    if ExtractUsernameFromEmail(email) == Value(u) && ExtractDomainFromEmail(email) == d {
      var i := IndexOf(email, '@');
      assert email == email[..i] + [email[i]] + email[i + 1..];
    }
  }

  /** In `u + "@" + d`, with no '@' in `u`, the first '@' is the one after `u`. */
  lemma FirstAtAfterUsername(u: string, d: string)
    requires '@' !in u
    ensures IndexOf(u + "@" + d, '@') == |u|
  {
    var email := u + "@" + d;
    assert email[|u|] == '@';
  }

  /** An address with an '@' is rebuilt from its two parts. */
  lemma UsernameAndDomainRebuildEmail(email: string)
    requires '@' in email
    ensures ExtractUsernameFromEmail(email).Value?
    ensures ExtractUsernameFromEmail(email).value + "@" + ExtractDomainFromEmail(email) == email
    ensures '@' !in ExtractUsernameFromEmail(email).value
  {
    var i := IndexOf(email, '@');
    EmailSplitsAtFirstAt(email, email[..i], email[i + 1..]);
  }

  /** Without an '@' the domain is the whole address and the user name cannot be extracted. */
  lemma EmailWithoutAt(email: string)
    requires '@' !in email
    ensures ExtractDomainFromEmail(email) == email
    ensures ExtractUsernameFromEmail(email) == Thrown(StringIndexOutOfBounds)
  {
  }

  /** A contact's own address parts are those of its address. */
  lemma ContactAddressParts(c: Contact)
    requires '@' in c.emailAddress
    ensures c.GetUsernameFromEmail().Value?
    ensures c.GetUsernameFromEmail().value + "@" + c.GetDomain() == c.emailAddress
  {
    UsernameAndDomainRebuildEmail(c.emailAddress);
  }

  /** Contacts are equal exactly when address, first name and surname are; an
      absent name differs from every present one. */
  lemma ContactEquality(a: Contact, b: Contact)
    ensures a == b <==> a.emailAddress == b.emailAddress && a.firstname == b.firstname && a.surname == b.surname
    ensures a.emailAddress == b.emailAddress && a.firstname == None && b.firstname.Some? ==> a != b
  {
  }
}
