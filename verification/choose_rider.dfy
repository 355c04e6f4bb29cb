/** The contact search of the choose-rider screen (`handleSearch`). */
module ChooseRider {
  import opened Text
  import opened Query

  datatype Contact = Contact(id: string, name: string, phoneNumber: string)

  /** The name test: the lowercased name contains the lowercased query. */
  predicate NameMatches(contact: Contact, query: string) {
    Includes(ToLower(contact.name), ToLower(query))
  }

  /** A contact matches when its name matches, or its phone number
      contains the query as typed. */
  predicate Matches(contact: Contact, query: string) {
    NameMatches(contact, query) || Includes(contact.phoneNumber, query)
  }

  /** The list shown for a query: all contacts for the empty query, else
      the matching ones, always filtered from the full list. */
  function Search(contacts: seq<Contact>, query: string): (r: seq<Contact>)
    ensures query == "" ==> r == contacts
    ensures forall c | c in r :: c in contacts && (query == "" || Matches(c, query))
    ensures forall i | 0 <= i < |contacts| :: Matches(contacts[i], query) ==> contacts[i] in r
    ensures Subsequence(r, contacts)
  {
    if query == "" then
      SelfSubsequence(contacts);
      contacts
    else
      FilterIsSubsequence(contacts, (c: Contact) => Matches(c, query));
      Filter(contacts, (c: Contact) => Matches(c, query))
  }

  /** The screen's state: the query text and the list shown. */
  datatype Screen = Screen(query: string, shown: seq<Contact>)

  /** `handleSearch(text)`. */
  function HandleSearch(contacts: seq<Contact>, screen: Screen, text: string): (r: Screen)
    ensures r.query == text
    ensures r.shown == Search(contacts, text)
  {
    Screen(text, Search(contacts, text))
  }

  /** Clearing the query brings back every contact. */
  lemma ClearingRestoresAll(contacts: seq<Contact>, screen: Screen)
    ensures HandleSearch(contacts, screen, "").shown == contacts
  {
  }

  /** Lowercasing commutes with taking a slice. */
  lemma ToLowerSlice(s: string, i: int, j: int)
    requires 0 <= i <= j <= |s|
    ensures ToLower(s[i..j]) == ToLower(s)[i..j]
  {
    var a := ToLower(s[i..j]);
    var b := ToLower(s)[i..j];
    assert |a| == |b| == j - i;
    forall k | 0 <= k < j - i
      ensures a[k] == b[k]
    {
      assert s[i..j][k] == s[i + k];
    }
  }

  /** The stretch of `name` starting at `i` equals `query` up to ASCII case. */
  predicate SameUpToCaseAt(name: string, query: string, i: int) {
    0 <= i <= |name| - |query| && ToLower(name[i..i + |query|]) == ToLower(query)
  }

  /** The name test is a case-insensitive substring test: the query matches
      exactly when some stretch of the name equals it up to ASCII case. */
  lemma NameMatchIsCaseInsensitiveSubstring(contact: Contact, query: string)
    ensures NameMatches(contact, query) <==>
      exists i | 0 <= i <= |contact.name| :: SameUpToCaseAt(contact.name, query, i)
  {
    var name := contact.name;
    if NameMatches(contact, query) {
      var i :| 0 <= i <= |ToLower(name)| && OccursAt(ToLower(name), ToLower(query), i);
      ToLowerSlice(name, i, i + |query|);
      assert SameUpToCaseAt(name, query, i);
    }
    if exists i | 0 <= i <= |name| :: SameUpToCaseAt(name, query, i) {
      var i :| 0 <= i <= |name| && SameUpToCaseAt(name, query, i);
      ToLowerSlice(name, i, i + |query|);
      assert OccursAt(ToLower(name), ToLower(query), i);
    }
  }

  /** Retyping one letter of the query in the other case never changes
      whether a name matches. */
  lemma NameMatchIgnoresQueryCase(contact: Contact, query: string, k: nat, c: char)
    requires k < |query| && LowerChar(c) == LowerChar(query[k])
    ensures NameMatches(contact, query[k := c]) <==> NameMatches(contact, query)
  {
    assert ToLower(query[k := c]) == ToLower(query);
  }
}
