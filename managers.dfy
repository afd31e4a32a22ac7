/**
 * Organization creation: the slug is derived from the name when none is
 * given, and the API key is "pk_" followed by a random URL-safe token. The
 * token is a parameter; the row insert is the returned value.
 */
module OrganizationManager {
  import opened Text

  /** The fields passed to `create`. */
  datatype NewOrganization = NewOrganization(name: string, slug: string, apiKey: string)

  const ApiKeyPrefix: string := "pk_"

  /** `name.lower().replace(' ', '-')`. */
  function Slugify(name: string): (s: string)
    ensures |s| == |name|
    ensures forall i :: 0 <= i < |s| ==> s[i] == (if name[i] == ' ' then '-' else LowerChar(name[i]))
  {
    ReplaceChar(Lower(name), ' ', '-')
  }

  /** A derived slug has no spaces and no upper-case ASCII letters, and
      deriving it again changes nothing. */
  lemma SlugifySpec(name: string)
    ensures ' ' !in Slugify(name)
    ensures forall i :: 0 <= i < |name| ==> !('A' <= Slugify(name)[i] <= 'Z')
    ensures Slugify(Slugify(name)) == Slugify(name)
  {
    var s := Slugify(name);
    assert forall i :: 0 <= i < |s| ==> s[i] != ' ';
    assert forall i :: 0 <= i < |s| ==> Slugify(s)[i] == s[i];
  }

  /** `create_organization`: the name unchanged, the given slug when it is
      non-empty and the derived one otherwise, and a key made of the prefix
      and the token. */
  function CreateOrganization(name: string, slug: Option<string>, token: string): (o: NewOrganization)
    ensures o.name == name
    ensures StartsWith(o.apiKey, ApiKeyPrefix) && o.apiKey[|ApiKeyPrefix|..] == token
    ensures slug.Some? && slug.value != "" ==> o.slug == slug.value
    ensures slug.None? || slug.value == "" ==> o.slug == Slugify(name)
  {
    var chosen := if slug.Some? && slug.value != "" then slug.value else Slugify(name);
    NewOrganization(name, chosen, ApiKeyPrefix + token)
  }

  /** Distinct tokens give distinct keys, so uniqueness of the key reduces to
      uniqueness of the token. */
  lemma KeysFollowTokens(name1: string, slug1: Option<string>, token1: string,
                         name2: string, slug2: Option<string>, token2: string)
    ensures CreateOrganization(name1, slug1, token1).apiKey == CreateOrganization(name2, slug2, token2).apiKey
      <==> token1 == token2
  {
    var k1 := CreateOrganization(name1, slug1, token1).apiKey;
    var k2 := CreateOrganization(name2, slug2, token2).apiKey;
    if k1 == k2 {
      assert k1[|ApiKeyPrefix|..] == k2[|ApiKeyPrefix|..];
    }
  }
}
