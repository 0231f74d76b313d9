/**
 The form body sent to the token endpoint, before `qs.stringify` encodes it.
 It is the lodash merge of the grant parameters, the client-authentication
 fields and the grant-specific extras; every value is a string, so lodash's
 deep merge is plain right-biased override here.
 */
module FormBody {
  import opened TokenTypes

  type Form = map<string, string>

  /** The fixed client-assertion type of a JWT-bearer client assertion. */
  const ClientAssertionType: string := "urn:ietf:params:oauth:client-assertion-type:jwt-bearer"

  /** Every field name a body built here can hold. */
  const BodyFields: set<string> :=
    {"grant_type", "code", "refresh_token", "redirect_uri", "client_id", "client_assertion_type", "client_assertion"}

  /** The keys the client-authentication fields always set. */
  const AuthFieldNames: set<string> :=
    {"client_id", "client_assertion_type", "client_assertion", "redirect_uri"}

  /** `_.merge(dest, sources[0], sources[1], ...)`: sources applied left to right, later ones win. */
  function Merge(dest: Form, sources: seq<Form>): Form
    decreases |sources|
  {
    if |sources| == 0 then dest
    else Merge(dest, sources[..|sources| - 1]) + sources[|sources| - 1]
  }

  /** Some source defines `k`. */
  ghost predicate SomeSourceHas(sources: seq<Form>, k: string) {
    exists i :: 0 <= i < |sources| && k in sources[i]
  }

  /** `sources[i]` is the last source that defines `k`. */
  ghost predicate LastHolder(sources: seq<Form>, k: string, i: int) {
    && 0 <= i < |sources|
    && k in sources[i]
    && forall j :: i < j < |sources| ==> k !in sources[j]
  }

  /**
   What a merge means key by key: a key is present exactly when the
   destination or some source has it; its value comes from the last source
   that has it, and from the destination only when no source has it.
   */
  lemma {:induction false} MergeKey(dest: Form, sources: seq<Form>, k: string)
    ensures k in Merge(dest, sources) <==> k in dest || SomeSourceHas(sources, k)
    ensures forall i :: LastHolder(sources, k, i) ==> Merge(dest, sources)[k] == sources[i][k]
    ensures k in dest && !SomeSourceHas(sources, k) ==> Merge(dest, sources)[k] == dest[k]
    decreases |sources|
  {
    if |sources| > 0 {
      var n := |sources| - 1;
      var init := sources[..n];
      MergeKey(dest, init, k);
      assert forall i :: 0 <= i < n ==> init[i] == sources[i];
      if SomeSourceHas(sources, k) && k !in sources[n] {
        var i :| 0 <= i < |sources| && k in sources[i];
        assert i < n && k in init[i];
      }
      if SomeSourceHas(init, k) {
        var i :| 0 <= i < |init| && k in init[i];
        assert k in sources[i];
      }
      forall i | LastHolder(sources, k, i)
        ensures Merge(dest, sources)[k] == sources[i][k]
      {
        if i < n {
          assert LastHolder(init, k, i);
        }
      }
    }
  }

  /**
   When the destination and the sources have pairwise disjoint keys, the
   merge overwrites nothing: every entry of every input survives unchanged.
   */
  lemma {:induction false} MergeDisjointKeepsAll(dest: Form, sources: seq<Form>)
    requires forall i :: 0 <= i < |sources| ==> dest.Keys !! sources[i].Keys
    requires forall i, j :: 0 <= i < j < |sources| ==> sources[i].Keys !! sources[j].Keys
    ensures forall k :: k in dest ==> k in Merge(dest, sources) && Merge(dest, sources)[k] == dest[k]
    ensures forall i, k :: 0 <= i < |sources| && k in sources[i] ==>
              k in Merge(dest, sources) && Merge(dest, sources)[k] == sources[i][k]
  {
    forall k | k in dest
      ensures k in Merge(dest, sources) && Merge(dest, sources)[k] == dest[k]
    {
      MergeKey(dest, sources, k);
    }
    forall i, k | 0 <= i < |sources| && k in sources[i]
      ensures k in Merge(dest, sources) && Merge(dest, sources)[k] == sources[i][k]
    {
      MergeKey(dest, sources, k);
      forall j | i < j < |sources|
        ensures k !in sources[j]
      {
        assert sources[i].Keys !! sources[j].Keys;
      }
      assert LastHolder(sources, k, i);
    }
  }

  /** Merging two sources is overriding twice, first with `a`, then with `x`. */
  lemma MergeTwo(dest: Form, a: Form, x: Form)
    ensures Merge(dest, [a, x]) == dest + a + x
  {
    assert [a, x][..1] == [a];
    assert Merge(dest, [a, x]) == Merge(dest, [a]) + x;
    assert [a][..0] == [];
    assert Merge(dest, [a]) == Merge(dest, []) + a;
  }

  /** Overriding again with sources on the same keys erases the first overrides. */
  lemma OverrideSameKeys(p: Form, a: Form, x: Form, a': Form, x': Form)
    requires a.Keys == a'.Keys && x.Keys == x'.Keys
    ensures p + a + x + a' + x' == p + a' + x'
  {
  }

  /** The grant's own parameters, the value of `this.params` before the merge. */
  function GrantParams(g: Grant): (p: Form)
    ensures "grant_type" in p
    ensures p["grant_type"] == (if g.AuthorizationCode? then "authorization_code" else "refresh_token")
    ensures "refresh_token" !in p
    ensures "code" in p <==> g.AuthorizationCode?
    ensures g.AuthorizationCode? ==> p["code"] == g.code
    ensures p.Keys <= {"grant_type", "code"}
  {
    match g
    case AuthorizationCode(code) => map["grant_type" := "authorization_code", "code" := code]
    case RefreshToken => map["grant_type" := "refresh_token"]
  }

  /** The client-authentication fields, merged on top of the grant parameters. */
  function AuthFields(reg: Registration, consent: Consent, assertion: string): Form {
    map[
      "client_id" := reg.clientId,
      "client_assertion_type" := ClientAssertionType,
      "client_assertion" := assertion,
      "redirect_uri" := consent.redirectUri
    ]
  }

  /** The grant-specific extras, merged last: the stored refresh token on a refresh grant. */
  function AdditionalParams(g: Grant, consent: Consent): Form {
    if g.RefreshToken? then map["refresh_token" := consent.refreshToken] else map[]
  }

  /**
   The token-endpoint form body for grant `g`, signed with `assertion`.
   Whatever the grant, it authenticates the client and repeats the redirect
   URI; `code` travels exactly on an authorization-code grant and
   `refresh_token` exactly on a refresh grant, and the grant parameters reach
   the body unchanged.
   */
  function Body(g: Grant, consent: Consent, reg: Registration, assertion: string): (b: Form)
    ensures b.Keys <= BodyFields
    ensures AuthFieldNames <= b.Keys
    ensures b["client_id"] == reg.clientId
    ensures b["client_assertion_type"] == ClientAssertionType
    ensures b["client_assertion"] == assertion
    ensures b["redirect_uri"] == consent.redirectUri
    ensures "grant_type" in b
    ensures b["grant_type"] == "authorization_code" <==> g.AuthorizationCode?
    ensures b["grant_type"] == "refresh_token" <==> g.RefreshToken?
    ensures "code" in b <==> g.AuthorizationCode?
    ensures g.AuthorizationCode? ==> b["code"] == g.code
    ensures "refresh_token" in b <==> g.RefreshToken?
    ensures g.RefreshToken? ==> b["refresh_token"] == consent.refreshToken
    ensures forall k :: k in GrantParams(g) ==> k in b && b[k] == GrantParams(g)[k]
  {
    GrantParams(g) + AuthFields(reg, consent, assertion) + AdditionalParams(g, consent)
  }

  /**
   `Body` is the lodash merge of the grant parameters, then the
   client-authentication fields, then the grant-specific extras.
   */
  lemma BodyIsMerge(g: Grant, consent: Consent, reg: Registration, assertion: string)
    ensures Body(g, consent, reg, assertion)
         == Merge(GrantParams(g), [AuthFields(reg, consent, assertion), AdditionalParams(g, consent)])
  {
    MergeTwo(GrantParams(g), AuthFields(reg, consent, assertion), AdditionalParams(g, consent));
  }

  /**
   A healing retry runs the evaluator again on the same neuron, whose
   `this.params` the first run's merge has already turned into the whole
   body. Merging fresh authentication fields and extras into that body gives
   exactly the body a fresh build would send, so the mutation never leaks a
   stale field into a retried request.
   */
  lemma RetryOverMergedParamsSendsFreshBody(g: Grant, consent: Consent, consent': Consent,
                                            reg: Registration, reg': Registration,
                                            assertion: string, assertion': string)
    ensures Merge(Body(g, consent, reg, assertion), [AuthFields(reg', consent', assertion'), AdditionalParams(g, consent')])
         == Body(g, consent', reg', assertion')
  {
    var p := GrantParams(g);
    var auth := AuthFields(reg', consent', assertion');
    var extra := AdditionalParams(g, consent');
    var first := Body(g, consent, reg, assertion);
    MergeTwo(first, auth, extra);
    MergeTwo(p, auth, extra);
    MergeTwo(p, AuthFields(reg, consent, assertion), AdditionalParams(g, consent));
    OverrideSameKeys(p, AuthFields(reg, consent, assertion), AdditionalParams(g, consent), auth, extra);
  }
}
