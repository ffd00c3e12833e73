/** Who may see a cached answer: normalised sites, principals and query signatures, and the key
    under which an answer is cached. */
module Scopes {
  import opened Text
  import opened Json

  datatype Failure =
    | ServiceClosed
    | Overloaded
    | Invalidated
    | IdentityMismatch
    | AuthenticationFailed
    | PermissionDenied
    | Unavailable
    | Other(message: string)

  datatype Login = Login(site: string, principal: string)

  datatype Identity = Identity(site: string, principal: string, permissionEpoch: string, schemaRevision: string,
                               dataRevision: string)

  /** What a cached answer belongs to, every part normalised. */
  datatype Scope = Scope(login: Login, permissionEpoch: string, schemaRevision: string, dataRevision: string,
                         signature: string)

  // ------------------------------------------------------------- normalisers

  const MAX_SITE := 2048
  const MAX_PRINCIPAL := 254
  const MAX_SIGNATURE := 32768

  function StripSlash(s: string): string {
    if s != "" && s[|s| - 1] == '/' then s[..|s| - 1] else s
  }

  /** The text both `normalizeSite` functions compute. */
  function SiteText(s: string): string {
    Lower(StripSlash(Trim(s)))
  }

  /** `normalizeSite` of the read service. */
  function NormalizeSite(s: string): Result<string, Failure> {
    if SiteText(s) == "" then Err(Other("Frappe read site is required."))
    else if |SiteText(s)| > MAX_SITE then Err(Other("Frappe read site is too long."))
    else Ok(SiteText(s))
  }

  /** `normalizeSite` of the store. */
  function StoreSite(s: string): Result<string, Failure> {
    if Trim(s) == "" then Err(Other("Frappe site is required.")) else Ok(SiteText(s))
  }

  /** `normalizePrincipal` of the store. */
  function PrincipalText(s: string): string {
    Lower(Trim(s))
  }

  /** `normalizePrincipal` of the read service. */
  function NormalizePrincipal(s: string): Result<string, Failure> {
    if PrincipalText(s) == "" then Err(Other("Frappe read principal is required."))
    else if |PrincipalText(s)| > MAX_PRINCIPAL then Err(Other("Frappe read principal is too long."))
    else Ok(PrincipalText(s))
  }

  function SignatureChar(c: char): char {
    var d := LowerChar(c);
    if 'a' <= d <= 'z' || IsDigit(d) || d == '_' || d == '.' || d == ':' || d == '/' || d == '-' then d else ' '
  }

  function Cleaned(s: string): (r: string)
    ensures |r| == |s| && forall i :: 0 <= i < |s| ==> r[i] == SignatureChar(s[i])
  {
    if s == "" then "" else [SignatureChar(s[0])] + Cleaned(s[1..])
  }

  /** `normalizeQuerySignature`. */
  function SignatureText(s: string): string {
    Trim(Collapse(Cleaned(s)))
  }

  // ----------------------------------------------- normalising what is normal

  /** A site that normalising leaves as it is. */
  predicate NormalSite(s: string) {
    NormalizeSite(s) == Ok(s)
  }

  lemma {:induction false} LowerFixed(s: string)
    ensures Lower(Lower(s)) == Lower(s)
  {
    var t := Lower(s);
    forall i | 0 <= i < |s| ensures Lower(t)[i] == t[i] { assert LowerChar(LowerChar(s[i])) == LowerChar(s[i]); }
  }

  lemma LowerTrimmed(s: string)
    requires Trimmed(s)
    ensures Trimmed(Lower(s))
  {
  }

  /** Only a text that still ends in a slash or a blank after one normalisation changes again. */
  lemma {:induction false} SiteTextStable(s: string)
    ensures var n := SiteText(s);
      SiteText(n) == n <==> n == "" || (n[|n| - 1] != '/' && !IsSpace(n[|n| - 1]))
  {
    var t := Trim(s);
    var u := StripSlash(t);
    LowerFixed(u);
    if u != "" {
      assert u[0] == t[0];
      LowSiteStable(Lower(u));
    }
  }

  lemma {:induction false} LowSiteStable(n: string)
    requires n != "" && !IsSpace(n[0]) && Lower(n) == n
    ensures SiteText(n) == n <==> n[|n| - 1] != '/' && !IsSpace(n[|n| - 1])
  {
    if IsSpace(n[|n| - 1]) { TrimShrinks(n); } else { TrimIdempotent(n); }
  }

  lemma {:induction false} TrimShrinks(s: string)
    requires s != "" && !IsSpace(s[0]) && IsSpace(s[|s| - 1])
    ensures |Trim(s)| < |s|
  {
    assert TrimLeft(s) == s;
  }

  /** What `normalizeSite` of the service returns is never blank to the store. */
  lemma NormalizedNotBlank(s: string)
    requires NormalizeSite(s).Ok?
    ensures StoreSite(NormalizeSite(s).value).Ok?
  {
    var n := SiteText(s);
    assert n[0] == LowerChar(Trim(s)[0]);
    TrimRightKeeps(n);
  }

  lemma {:induction false} TrimRightKeeps(s: string)
    requires s != "" && !IsSpace(s[0])
    ensures TrimRight(s) != ""
    decreases |s|
  {
    if IsSpace(s[|s| - 1]) { TrimRightKeeps(s[..|s| - 1]); }
  }

  /** A principal normalises to a text that normalises to itself. */
  lemma PrincipalStable(s: string)
    ensures PrincipalText(PrincipalText(s)) == PrincipalText(s)
  {
    LowerTrimmed(Trim(s));
    TrimIdempotent(Lower(Trim(s)));
    LowerFixed(Trim(s));
  }

  predicate Clean(s: string) {
    forall i :: 0 <= i < |s| ==> SignatureChar(s[i]) == s[i]
  }

  predicate SingleBlanks(s: string) {
    forall i, j :: 0 <= i < |s| && 0 <= j < |s| && j == i + 1 ==> !(s[i] == ' ' && s[j] == ' ')
  }

  lemma {:induction false} CollapseShape(s: string)
    requires Clean(s)
    ensures Clean(Collapse(s)) && SingleBlanks(Collapse(s))
    ensures s != "" ==> Collapse(s) != "" && Collapse(s)[0] == s[0]
    decreases |s|
  {
    if |s| >= 2 {
      assert Clean(s[1..]);
      CollapseShape(s[1..]);
    }
  }

  lemma {:induction false} TrimShape(s: string)
    requires Clean(s) && SingleBlanks(s)
    ensures Clean(Trim(s)) && SingleBlanks(Trim(s))
  {
    TrimLeftShape(s);
    TrimRightShape(TrimLeft(s));
  }

  lemma {:induction false} TrimLeftShape(s: string)
    requires Clean(s) && SingleBlanks(s)
    ensures Clean(TrimLeft(s)) && SingleBlanks(TrimLeft(s))
    decreases |s|
  {
    if s != "" && IsSpace(s[0]) { TrimLeftShape(s[1..]); }
  }

  lemma {:induction false} TrimRightShape(s: string)
    requires Clean(s) && SingleBlanks(s)
    ensures Clean(TrimRight(s)) && SingleBlanks(TrimRight(s))
    decreases |s|
  {
    if s != "" && IsSpace(s[|s| - 1]) { TrimRightShape(s[..|s| - 1]); }
  }

  lemma {:induction false} CollapseFixed(s: string)
    requires SingleBlanks(s)
    ensures Collapse(s) == s
    decreases |s|
  {
    if |s| >= 2 {
      assert !(s[0] == ' ' && s[1] == ' ');
      CollapseFixed(s[1..]);
    }
  }

  /** A query signature normalises to a text that normalises to itself. */
  lemma SignatureStable(s: string)
    ensures SignatureText(SignatureText(s)) == SignatureText(s)
  {
    var c := Cleaned(s);
    assert Clean(c) by {
      forall i | 0 <= i < |c| ensures SignatureChar(c[i]) == c[i] { assert c[i] == SignatureChar(s[i]); }
    }
    CollapseShape(c);
    TrimShape(Collapse(c));
    var t := SignatureText(s);
    assert Cleaned(t) == t;
    CollapseFixed(t);
    TrimIdempotent(t);
  }

  // ------------------------------------------------------------ the cache key

  function ScopeOf(identity: Identity, signature: string): Scope {
    Scope(Login(SiteText(identity.site), PrincipalText(identity.principal)), identity.permissionEpoch,
          identity.schemaRevision, identity.dataRevision, SignatureText(signature))
  }

  function ScopeMembers(scope: Scope): (r: seq<Member>)
    ensures |r| == 6
  {
    [ Member("site", Str(scope.login.site)), Member("principal", Str(scope.login.principal)),
      Member("permissionEpoch", Str(scope.permissionEpoch)), Member("schemaRevision", Str(scope.schemaRevision)),
      Member("dataRevision", Str(scope.dataRevision)), Member("querySignature", Str(scope.signature)) ]
  }

  lemma ScopeCanonicalizable(scope: Scope)
    ensures Canonicalizable(Obj(ScopeMembers(scope)))
  {
    var ms := ScopeMembers(scope);
    assert |ms[0].key| == 4 && |ms[1].key| == 9 && |ms[2].key| == 15 && |ms[3].key| == 14 && |ms[4].key| == 12;
    assert ms[3].key[0] == 's' && ms[5].key[0] == 'q';
  }

  /** The canonical text of a scope, standing for its SHA-256 hash. */
  function ScopeKey(scope: Scope): string {
    ScopeCanonicalizable(scope);
    "frappe:" + ValueText(Obj(ScopeMembers(scope)))
  }

  /** `frappeCacheKey`. */
  function CacheKey(identity: Identity, signature: string): string {
    ScopeKey(ScopeOf(identity, signature))
  }

  lemma ScopeFields(a: Scope, b: Scope)
    requires forall i :: 0 <= i < 6 ==> ScopeMembers(a)[i].value == ScopeMembers(b)[i].value
    ensures a == b
  {
    assert ScopeMembers(a)[0].value == ScopeMembers(b)[0].value && ScopeMembers(a)[1].value == ScopeMembers(b)[1].value;
    assert ScopeMembers(a)[2].value == ScopeMembers(b)[2].value && ScopeMembers(a)[3].value == ScopeMembers(b)[3].value;
    assert ScopeMembers(a)[4].value == ScopeMembers(b)[4].value && ScopeMembers(a)[5].value == ScopeMembers(b)[5].value;
  }

  lemma ScopeShape(a: Scope, b: Scope, i: nat)
    requires i < 6
    ensures ScopeMembers(a)[i].key == ScopeMembers(b)[i].key && ScopeMembers(a)[i].value.Str?
  {
  }

  /** Different scopes never share a cache key. */
  lemma ScopeKeyInjective(a: Scope, b: Scope)
    ensures ScopeKey(a) == ScopeKey(b) <==> a == b
  {
    if ScopeKey(a) == ScopeKey(b) {
      var ms, ns := ScopeMembers(a), ScopeMembers(b);
      ScopeCanonicalizable(a);
      ScopeCanonicalizable(b);
      assert SameValue(Obj(ms), Obj(ns)) by {
        CutEqual("frappe:", ValueText(Obj(ms)), "frappe:", ValueText(Obj(ns)));
        CanonicalJsonInjective(Obj(ms), Obj(ns));
      }
      assert DistinctKeys(ns);
      forall i | 0 <= i < 6 ensures ScopeMembers(a)[i].value == ScopeMembers(b)[i].value {
        ScopeShape(a, b, i);
        PlacesAgree(ms, ns, i);
      }
      ScopeFields(a, b);
    }
  }
}
