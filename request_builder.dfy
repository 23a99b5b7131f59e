/**
 * Request shaping shared by both client variants: the query-parameter
 * dictionaries each operation grows by successive Add calls, the
 * identity headers, the URL path templates and the join of lookup ids.
 */
module RequestBuilder {
  import opened Wrappers
  import opened Text
  import opened UriEscape
  import opened Http

  const Hostname := "https://api.media.microsoft.com"
  const ClientName := "GrooveClientSDK"

  /** The current client's X-Client-Version: the assembly version's "Major.Minor". */
  function AssemblyClientVersion(major: nat, minor: nat): (v: string)
    ensures |v| >= 3 && '.' in v
  {
    var s := NatToDecimal(major) + "." + NatToDecimal(minor);
    assert s[|NatToDecimal(major)|] == '.';
    s
  }

  /** The version string reads back as the two numbers: split at the dot, each piece is the decimal of one of them. */
  lemma AssemblyClientVersionReadsBack(major: nat, minor: nat)
    ensures SplitOn(AssemblyClientVersion(major, minor), '.') == [NatToDecimal(major), NatToDecimal(minor)]
    ensures DecimalValue(NatToDecimal(major)) == major && DecimalValue(NatToDecimal(minor)) == minor
  {
    NatToDecimalRoundTrip(major);
    NatToDecimalRoundTrip(minor);
    var parts := [NatToDecimal(major), NatToDecimal(minor)];
    assert Join(parts, ".") == AssemblyClientVersion(major, minor) by {
      assert parts[1..] == [NatToDecimal(minor)];
    }
    SplitOnJoin(parts, '.');
  }

  /** The accessToken parameter: "Bearer " + application token, data-escaped. */
  function AccessTokenValue(appToken: string): string {
    EscapeDataString("Bearer " + appToken)
  }

  /**
   * The accessToken value is query-safe (unreserved characters and percent
   * escapes only), begins with the escaped "Bearer " and decodes back to it.
   */
  lemma AccessTokenValueDecodes(appToken: string)
    ensures AccessTokenValue(appToken) == "Bearer%20" + EscapeDataString(appToken)
    ensures Unescape(AccessTokenValue(appToken)) == Some("Bearer " + appToken)
    ensures forall k :: 0 <= k < |AccessTokenValue(appToken)| ==>
              IsUnreserved(AccessTokenValue(appToken)[k]) || AccessTokenValue(appToken)[k] == '%'
  {
    BearerPrefixEscapes(appToken);
    UnescapeEscape("Bearer " + appToken);
  }

  /** The value a string argument contributes: none when null or empty. */
  function NonEmpty(s: Option<string>): (r: Option<string>)
    ensures r.Some? <==> !IsNullOrEmpty(s)
    ensures r.Some? ==> r == s
  {
    if IsNullOrEmpty(s) then None else s
  }

  /** The value a nullable [Flags] argument contributes. */
  function FlagsEntry(f: Option<FlagsValue>): Option<string> {
    if f.Some? then Some(FlagsParameter(f.value)) else None
  }

  /** SearchFilter.Default and ExtraDetails.None, the zero members the client leaves out. */
  const DefaultFilter: FlagsValue := ["Default"]
  const NoExtras: FlagsValue := ["None"]

  /** The value a [Flags] argument contributes when it is left out at its zero member `zero`. */
  function FlagsUnless(f: FlagsValue, zero: FlagsValue): Option<string> {
    if f == zero then None else Some(FlagsParameter(f))
  }

  /** The value a nullable int argument contributes. */
  function NumberEntry(n: Option<int32>): Option<string> {
    if n.Some? then Some(Int32ToString(n.value)) else None
  }

  /** The value a nullable plain enum argument contributes. */
  function NameEntry(n: Option<MemberName>): Option<string> {
    if n.Some? then Some(n.value) else None
  }

  /** m holds `key` exactly when `value` is given, and then with that value. */
  predicate HasOptional<K>(m: map<K, string>, key: K, value: Option<string>) {
    (key in m <==> value.Some?) && (value.Some? ==> m[key] == value.value)
  }

  const BaseKeys: set<ParameterKey> := {AccessTokenKey, ContinuationTokenKey, LanguageKey, CountryKey, SourceKey}

  /** The entries FormatRequestParametersAsync puts in every dictionary, key by key. */
  predicate HasBaseEntries(p: Parameters, appToken: string, continuationToken: Option<string>,
                           language: Option<string>, country: Option<string>, source: Option<FlagsValue>)
  {
    && AccessTokenKey in p && p[AccessTokenKey] == AccessTokenValue(appToken)
    && HasOptional(p, ContinuationTokenKey, NonEmpty(continuationToken))
    && HasOptional(p, LanguageKey, NonEmpty(language))
    && HasOptional(p, CountryKey, NonEmpty(country))
    && HasOptional(p, SourceKey, FlagsEntry(source))
  }

  /** The dictionary FormatRequestParametersAsync returns: the base entries and nothing else. */
  predicate IsBaseParameters(p: Parameters, appToken: string, continuationToken: Option<string>,
                             language: Option<string>, country: Option<string>, source: Option<FlagsValue>)
  {
    p.Keys <= BaseKeys && HasBaseEntries(p, appToken, continuationToken, language, country, source)
  }

  /** FormatRequestParametersAsync once the application token is known. */
  method BuildParameters(appToken: string, continuationToken: Option<string>, language: Option<string>,
                         country: Option<string>, source: Option<FlagsValue>)
    returns (p: Parameters)
    ensures IsBaseParameters(p, appToken, continuationToken, language, country, source)
  {
    p := map[AccessTokenKey := AccessTokenValue(appToken)];
    var continuation := NonEmpty(continuationToken);
    if continuation.Some? {
      p := p[ContinuationTokenKey := continuation.value];
    }
    var lang := NonEmpty(language);
    if lang.Some? {
      p := p[LanguageKey := lang.value];
    }
    var market := NonEmpty(country);
    if market.Some? {
      p := p[CountryKey := market.value];
    }
    var sources := FlagsEntry(source);
    if sources.Some? {
      p := p[SourceKey := sources.value];
    }
  }

  /** With every optional argument null or empty the dictionary is exactly {accessToken}. */
  lemma OnlyAccessToken(p: Parameters, appToken: string, continuationToken: Option<string>,
                        language: Option<string>, country: Option<string>)
    requires IsNullOrEmpty(continuationToken) && IsNullOrEmpty(language) && IsNullOrEmpty(country)
    requires IsBaseParameters(p, appToken, continuationToken, language, country, None)
    ensures p == map[AccessTokenKey := "Bearer%20" + EscapeDataString(appToken)]
  {
    BearerPrefixEscapes(appToken);
    assert p.Keys == {AccessTokenKey};
  }

  /** The arguments determine the dictionary: two dictionaries built from the same arguments are equal. */
  lemma BaseParametersDetermined(p1: Parameters, p2: Parameters, appToken: string, continuationToken: Option<string>,
                                 language: Option<string>, country: Option<string>, source: Option<FlagsValue>)
    requires IsBaseParameters(p1, appToken, continuationToken, language, country, source)
    requires IsBaseParameters(p2, appToken, continuationToken, language, country, source)
    ensures p1 == p2
  {
    assert p1.Keys == p2.Keys;
  }

  // ---------------------------------------------------------------------
  // Per-operation additions
  // ---------------------------------------------------------------------

  /** The q value of a search: the escaped query, when non-empty. */
  function QueryEntry(query: Option<string>): Option<string> {
    if IsNullOrEmpty(query) then None else Some(EscapeDataString(query.value))
  }

  const SearchKeys: set<ParameterKey> := {QueryKey, FiltersKey, SearchMaxItemsKey}

  /** The parameters of SearchApiAsync. */
  predicate IsSearchParameters(p: Parameters, appToken: string, query: Option<string>, source: Option<FlagsValue>,
                               filter: FlagsValue, language: Option<string>, country: Option<string>,
                               maxItems: Option<int32>, continuationToken: Option<string>)
  {
    && p.Keys <= BaseKeys + SearchKeys
    && HasBaseEntries(p, appToken, continuationToken, language, country, source)
    && HasOptional(p, QueryKey, QueryEntry(query))
    && HasOptional(p, FiltersKey, FlagsUnless(filter, DefaultFilter))
    && HasOptional(p, SearchMaxItemsKey, NumberEntry(maxItems))
  }

  method SearchParameters(appToken: string, query: Option<string>, source: Option<FlagsValue>, filter: FlagsValue,
                          language: Option<string>, country: Option<string>, maxItems: Option<int32>,
                          continuationToken: Option<string>)
    returns (p: Parameters)
    ensures IsSearchParameters(p, appToken, query, source, filter, language, country, maxItems, continuationToken)
  {
    p := BuildParameters(appToken, continuationToken, language, country, source);
    var q := QueryEntry(query);
    if q.Some? {
      p := p[QueryKey := q.value];
    }
    var filters := FlagsUnless(filter, DefaultFilter);
    if filters.Some? {
      p := p[FiltersKey := filters.value];
    }
    var count := NumberEntry(maxItems);
    if count.Some? {
      p := p[SearchMaxItemsKey := count.value];
    }
  }

  /** The parameters of LookupApiAsync. */
  predicate IsLookupParameters(p: Parameters, appToken: string, source: Option<FlagsValue>, language: Option<string>,
                               country: Option<string>, extras: FlagsValue, continuationToken: Option<string>)
  {
    && p.Keys <= BaseKeys + {ExtrasKey}
    && HasBaseEntries(p, appToken, continuationToken, language, country, source)
    && HasOptional(p, ExtrasKey, FlagsUnless(extras, NoExtras))
  }

  method LookupParameters(appToken: string, source: Option<FlagsValue>, language: Option<string>,
                          country: Option<string>, extras: FlagsValue, continuationToken: Option<string>)
    returns (p: Parameters)
    ensures IsLookupParameters(p, appToken, source, language, country, extras, continuationToken)
  {
    p := BuildParameters(appToken, continuationToken, language, country, source);
    var extra := FlagsUnless(extras, NoExtras);
    if extra.Some? {
      p := p[ExtrasKey := extra.value];
    }
  }

  const PagingKeys: set<ParameterKey> := {OrderByKey, MaxItemsKey, PageKey}

  /** The paging entries of SubBrowseApiAsync and both BrowseApiAsync variants. */
  predicate HasPagingEntries(p: Parameters, orderBy: Option<MemberName>, maxItems: Option<int32>, page: Option<int32>) {
    && HasOptional(p, OrderByKey, NameEntry(orderBy))
    && HasOptional(p, MaxItemsKey, NumberEntry(maxItems))
    && HasOptional(p, PageKey, NumberEntry(page))
  }

  /** The parameters of SubBrowseApiAsync, and of the legacy BrowseApiAsync. */
  predicate IsPagedParameters(p: Parameters, appToken: string, orderBy: Option<MemberName>, maxItems: Option<int32>,
                              page: Option<int32>, language: Option<string>, country: Option<string>,
                              continuationToken: Option<string>)
  {
    && p.Keys <= BaseKeys + PagingKeys
    && HasBaseEntries(p, appToken, continuationToken, language, country, None)
    && HasPagingEntries(p, orderBy, maxItems, page)
  }

  method PagedParameters(appToken: string, orderBy: Option<MemberName>, maxItems: Option<int32>, page: Option<int32>,
                         language: Option<string>, country: Option<string>, continuationToken: Option<string>)
    returns (p: Parameters)
    ensures IsPagedParameters(p, appToken, orderBy, maxItems, page, language, country, continuationToken)
  {
    p := BuildParameters(appToken, continuationToken, language, country, None);
    var order := NameEntry(orderBy);
    if order.Some? {
      p := p[OrderByKey := order.value];
    }
    var count := NumberEntry(maxItems);
    if count.Some? {
      p := p[MaxItemsKey := count.value];
    }
    var pageNumber := NumberEntry(page);
    if pageNumber.Some? {
      p := p[PageKey := pageNumber.value];
    }
  }

  /** The parameters of the current BrowseApiAsync: genre whenever it is non-null, even empty. */
  predicate IsBrowseParameters(p: Parameters, appToken: string, genre: Option<string>, orderBy: Option<MemberName>,
                               maxItems: Option<int32>, page: Option<int32>, language: Option<string>,
                               country: Option<string>, continuationToken: Option<string>)
  {
    && p.Keys <= BaseKeys + PagingKeys + {GenreKey}
    && HasBaseEntries(p, appToken, continuationToken, language, country, None)
    && HasOptional(p, GenreKey, genre)
    && HasPagingEntries(p, orderBy, maxItems, page)
  }

  method BrowseParameters(appToken: string, genre: Option<string>, orderBy: Option<MemberName>, maxItems: Option<int32>,
                          page: Option<int32>, language: Option<string>, country: Option<string>,
                          continuationToken: Option<string>)
    returns (p: Parameters)
    ensures IsBrowseParameters(p, appToken, genre, orderBy, maxItems, page, language, country, continuationToken)
  {
    p := BuildParameters(appToken, continuationToken, language, country, None);
    if genre.Some? {
      p := p[GenreKey := genre.value];
    }
    var order := NameEntry(orderBy);
    if order.Some? {
      p := p[OrderByKey := order.value];
    }
    var count := NumberEntry(maxItems);
    if count.Some? {
      p := p[MaxItemsKey := count.value];
    }
    var pageNumber := NumberEntry(page);
    if pageNumber.Some? {
      p := p[PageKey := pageNumber.value];
    }
  }

  /** A browse without genre sends exactly what a genre-less (legacy) browse sends. */
  lemma BrowseWithoutGenreIsPaged(p: Parameters, appToken: string, orderBy: Option<MemberName>, maxItems: Option<int32>,
                                  page: Option<int32>, language: Option<string>, country: Option<string>,
                                  continuationToken: Option<string>)
    ensures IsBrowseParameters(p, appToken, None, orderBy, maxItems, page, language, country, continuationToken)
        <==> IsPagedParameters(p, appToken, orderBy, maxItems, page, language, country, continuationToken)
  {
  }

  /** The parameters of DiscoverAsync: genre only when non-empty. */
  predicate IsDiscoverParameters(p: Parameters, appToken: string, language: Option<string>, country: Option<string>,
                                 genre: Option<string>)
  {
    && p.Keys <= BaseKeys + {GenreKey}
    && HasBaseEntries(p, appToken, None, language, country, None)
    && HasOptional(p, GenreKey, NonEmpty(genre))
  }

  method DiscoverParameters(appToken: string, language: Option<string>, country: Option<string>, genre: Option<string>)
    returns (p: Parameters)
    ensures IsDiscoverParameters(p, appToken, language, country, genre)
  {
    p := BuildParameters(appToken, None, language, country, None);
    var g := NonEmpty(genre);
    if g.Some? {
      p := p[GenreKey := g.value];
    }
  }

  /** The parameters of LocationAsync. */
  predicate IsLocationParameters(p: Parameters, appToken: string, country: Option<string>, clientInstanceId: Option<string>)
  {
    && p.Keys <= BaseKeys + {ClientInstanceIdKey}
    && HasBaseEntries(p, appToken, None, None, country, None)
    && HasOptional(p, ClientInstanceIdKey, NonEmpty(clientInstanceId))
  }

  method LocationParameters(appToken: string, country: Option<string>, clientInstanceId: Option<string>)
    returns (p: Parameters)
    ensures IsLocationParameters(p, appToken, country, clientInstanceId)
  {
    p := BuildParameters(appToken, None, None, country, None);
    var instance := NonEmpty(clientInstanceId);
    if instance.Some? {
      p := p[ClientInstanceIdKey := instance.value];
    }
  }

  // ---------------------------------------------------------------------
  // Headers
  // ---------------------------------------------------------------------

  /** The identity pair, plus Authorization exactly when a value is given, verbatim. */
  predicate IsRequestHeaders(h: Headers, version: string, authorization: Option<string>) {
    && h.Keys == {ClientNameHeader, ClientVersionHeader} + (if authorization.Some? then {AuthorizationHeader} else {})
    && h[ClientNameHeader] == ClientName
    && h[ClientVersionHeader] == version
    && HasOptional(h, AuthorizationHeader, authorization)
  }

  /** FormatRequestHeaders of the current client. */
  method FormatRequestHeaders(version: string, userAuthorizationHeader: Option<string>) returns (h: Headers)
    ensures IsRequestHeaders(h, version, userAuthorizationHeader)
  {
    h := map[ClientNameHeader := ClientName, ClientVersionHeader := version];
    if userAuthorizationHeader.Some? {
      h := h[AuthorizationHeader := userAuthorizationHeader.value];
    }
  }

  // ---------------------------------------------------------------------
  // Paths
  // ---------------------------------------------------------------------

  function SearchPath(ns: MemberName): string {
    "/1/content/" + ns + "/search"
  }

  function LookupPath(ids: string): string {
    "/1/content/" + ids + "/lookup"
  }

  /** The source is interpolated with Enum.ToString(), so a combination keeps its ", " separator. */
  function BrowsePath(ns: MemberName, source: FlagsValue, itemType: MemberName): string {
    "/1/content/" + ns + "/" + EnumToString(source) + "/" + itemType + "/browse"
  }

  function SubBrowsePath(id: string, source: FlagsValue, browseType: MemberName, extra: FlagsValue): string {
    "/1/content/" + id + "/" + EnumToString(source) + "/" + browseType + "/" + EnumToString(extra) + "/browse"
  }

  function DiscoverPath(ns: MemberName, discoveryType: string): string {
    "/1/content/" + ns + "/" + discoveryType
  }

  function GenresPath(ns: MemberName): string {
    "/1/content/" + ns + "/catalog/genres"
  }

  function LocationPath(id: string, locationType: string): string {
    "/1/content/" + id + "/" + locationType
  }

  function CollectionPath(ns: MemberName, operation: MemberName): string {
    "/1/content/" + ns + "/collection/" + operation
  }

  function PlaylistPath(ns: MemberName, operation: MemberName): string {
    "/1/content/" + ns + "/collection/playlists/" + operation
  }

  function ProfilePath(ns: MemberName): string {
    "/1/user/" + ns + "/profile"
  }

  // ---------------------------------------------------------------------
  // Lookup ids
  // ---------------------------------------------------------------------

  /**
   * The Aggregate fold of LookupApiAsync: "+" is inserted only once the
   * accumulator is non-empty. The fold only ever appends to the accumulator.
   */
  function AggregateIds(current: string, ids: seq<string>): (r: string)
    ensures |current| <= |r| && r[..|current|] == current
    decreases |ids|
  {
    if ids == [] then current
    else
      var next := current + (if current != "" then "+" else "") + ids[0];
      var r := AggregateIds(next, ids[1..]);
      assert r[..|current|] == r[..|next|][..|current|];
      r
  }

  /** The ids segment of the lookup path: the "+"-join of the ids in list order, after any leading empty ids. */
  function JoinIds(ids: seq<string>): (r: string)
    ensures r == Join(DropLeadingEmpty(ids), "+")
  {
    AggregateFromEmpty(ids);
    AggregateIds("", ids)
  }

  /** The ids after any leading empty ones, which the fold drops without a separator. */
  function DropLeadingEmpty(ids: seq<string>): (r: seq<string>)
    ensures r == [] || r[0] != ""
    decreases |ids|
  {
    if ids != [] && ids[0] == "" then DropLeadingEmpty(ids[1..]) else ids
  }

  lemma {:induction false} AggregateFromNonEmpty(current: string, ids: seq<string>)
    requires current != "" && ids != []
    ensures AggregateIds(current, ids) == current + "+" + Join(ids, "+")
    decreases |ids|
  {
    var next := current + "+" + ids[0];
    if |ids| > 1 {
      AggregateFromNonEmpty(next, ids[1..]);
      assert Join(ids, "+") == ids[0] + "+" + Join(ids[1..], "+");
    }
  }

  /** From an empty accumulator the fold is the "+"-join after the leading empty ids. */
  lemma {:induction false} AggregateFromEmpty(ids: seq<string>)
    ensures AggregateIds("", ids) == Join(DropLeadingEmpty(ids), "+")
    decreases |ids|
  {
    if ids == [] {
    } else if ids[0] == "" {
      assert AggregateIds("", ids) == AggregateIds("", ids[1..]);
      AggregateFromEmpty(ids[1..]);
    } else {
      assert DropLeadingEmpty(ids) == ids;
      assert AggregateIds("", ids) == AggregateIds(ids[0], ids[1..]) by {
        assert "" + "" + ids[0] == ids[0];
      }
      if |ids| > 1 {
        AggregateFromNonEmpty(ids[0], ids[1..]);
      } else {
        assert ids[1..] == [];
      }
    }
  }

  /** Ids that are non-empty and free of "+" can be read back from the lookup path segment. */
  lemma LookupIdsRecoverable(ids: seq<string>)
    requires |ids| > 0
    requires forall i :: 0 <= i < |ids| ==> ids[i] != "" && '+' !in ids[i]
    ensures SplitOn(JoinIds(ids), '+') == ids
  {
    SplitOnJoin(ids, '+');
  }

  /** A single id and a one-element list of it give the same lookup path. */
  lemma SingleIdLookupPath(id: string)
    ensures LookupPath(JoinIds([id])) == "/1/content/" + id + "/lookup"
  {
    assert AggregateIds("", [id]) == AggregateIds("" + "" + id, []);
    assert "" + "" + id == id;
  }
}
