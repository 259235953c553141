/**
  The static helper of the portfolio plugin: the query arguments it hands to the host's
  `get_posts`, the image-ID list it parses out of post meta, the term lists it returns, and
  the yes/no questions it answers about the current request and theme. Every answer the host
  platform gives (stored options, post meta, terms, template lookup, theme headers, conditional
  tags) is a parameter.
*/
module PortfolioHelper {
  import opened Wrappers
  import opened Php

  const PostType: string := "portfolio"
  const Category: string := "portfolio_cat"
  const Skill: string := "portfolio_skill"

  /** The separator of the `_project_images` meta value. */
  const Comma: char := ','

  type PostId = int

  // =======================================================================================
  // Image IDs
  // =======================================================================================

  /** What `get_post_meta($id, '_project_images', true)` returned. */
  datatype MetaValue = MetaScalar(v: Scalar) | MetaArray(a: PhpArray)

  /** `n` separators in a row. */
  function Commas(n: nat): (s: string)
    ensures |s| == n && forall i :: 0 <= i < n ==> s[i] == Comma
  {
    seq(n, _ => Comma)
  }

  /**
    The string branch: drop trailing commas, split on commas, drop falsy segments. Every
    surviving entry keeps the position its segment had in the split as its key.
  */
  function ImageIdsFromString(s: string): (ids: PhpArray)
    ensures Ascending(ids)
    ensures forall e :: e in ids ==> e.key.IntKey? && e.value.Str? && KeptSegment(e.value.s)
  {
    var list := ListArray(Explode(Comma, RTrim(s, Comma)));
    ArrayFilterAscending(list);
    ArrayFilterKeeps(list);
    ArrayFilter(list)
  }

  /** `get_portfolio_images_ids` for the meta value the host returned. */
  function PortfolioImageIds(meta: MetaValue): (ids: PhpArray)
    ensures meta.MetaArray? ==> ids == meta.a
    ensures meta.MetaScalar? && !meta.v.Str? ==> ids == []
    ensures meta.MetaScalar? && meta.v.Str? ==>
      Ascending(ids) && forall e :: e in ids ==> e.key.IntKey? && Truthy(e.value)
  {
    match meta
    case MetaArray(a) => a
    case MetaScalar(v) => if v.Str? then ImageIdsFromString(v.s) else []
  }

  /** `has_portfolio_images` */
  function HasPortfolioImages(meta: MetaValue): (has: bool)
    ensures has <==> PortfolioImageIds(meta) != []
  {
    |PortfolioImageIds(meta)| > 0
  }

  /** The falsy segments of a split string are exactly the empty string and "0". */
  predicate KeptSegment(seg: string) {
    seg != "" && seg != "0"
  }

  /** `explode` lists an appended empty segment under the next key. */
  lemma ListArrayAppendEmpty(p: seq<string>)
    ensures ListArray(p + [""]) == ListArray(p) + [Entry(IntKey(|p|), Str(""))]
  {
  }

  /** Filtering a split string does not see separators appended to it. */
  lemma {:induction false} FilterIgnoresTrailingCommas(t: string, n: nat)
    ensures ArrayFilter(ListArray(Explode(Comma, t + Commas(n)))) == ArrayFilter(ListArray(Explode(Comma, t)))
    decreases n
  {
    if n > 0 {
      var shorter := t + Commas(n - 1);
      assert t + Commas(n) == shorter + [Comma];
      ExplodeTrailingSeparator(Comma, shorter);
      var p := Explode(Comma, shorter);
      var last := [Entry(IntKey(|p|), Str(""))];
      ListArrayAppendEmpty(p);
      ArrayFilterAppend(ListArray(p), last);
      assert ArrayFilter(last) == [] by {
        assert last[1..] == [];
      }
      FilterIgnoresTrailingCommas(t, n - 1);
    } else {
      assert t + Commas(0) == t;
    }
  }

  /** The `rtrim` step changes nothing: `array_filter` already drops the empty trailing segments. */
  lemma TrimIsRedundant(s: string)
    ensures ImageIdsFromString(s) == ArrayFilter(ListArray(Explode(Comma, s)))
  {
    var t := RTrim(s, Comma);
    assert s == t + Commas(|s| - |t|);
    FilterIgnoresTrailingCommas(t, |s| - |t|);
  }

  /** A segment other than "" and "0" shows up in the parsed list under its index. */
  lemma KeptSegmentListed(s: string, i: nat)
    requires i < |Explode(Comma, s)| && KeptSegment(Explode(Comma, s)[i])
    ensures Entry(IntKey(i), Str(Explode(Comma, s)[i])) in ImageIdsFromString(s)
  {
    var list := ListArray(Explode(Comma, s));
    TrimIsRedundant(s);
    ArrayFilterKeeps(list);
    assert list[i] in list;
  }

  /** Every entry of the parsed list is a segment other than "" and "0", under its index. */
  lemma ListedIsKeptSegment(s: string, e: Entry) returns (i: nat)
    requires e in ImageIdsFromString(s)
    ensures i < |Explode(Comma, s)| && KeptSegment(Explode(Comma, s)[i])
    ensures e == Entry(IntKey(i), Str(Explode(Comma, s)[i]))
  {
    var list := ListArray(Explode(Comma, s));
    TrimIsRedundant(s);
    ArrayFilterKeeps(list);
    i :| 0 <= i < |list| && list[i] == e;
  }

  /**
    The parsed list holds exactly the segments of `s` other than "" and "0", each under the
    index it had among all comma-separated segments, in that order.
  */
  lemma ImageIdsAreKeptSegments(s: string)
    ensures Ascending(ImageIdsFromString(s))
    ensures forall e :: e in ImageIdsFromString(s) <==>
      exists i :: 0 <= i < |Explode(Comma, s)| && KeptSegment(Explode(Comma, s)[i])
                  && e == Entry(IntKey(i), Str(Explode(Comma, s)[i]))
  {
    var segs := Explode(Comma, s);
    forall e ensures e in ImageIdsFromString(s) <==>
      exists i :: 0 <= i < |segs| && KeptSegment(segs[i]) && e == Entry(IntKey(i), Str(segs[i]))
    {
      if e in ImageIdsFromString(s) {
        var i := ListedIsKeptSegment(s, e);
      }
      if exists i :: 0 <= i < |segs| && KeptSegment(segs[i]) && e == Entry(IntKey(i), Str(segs[i])) {
        var i :| 0 <= i < |segs| && KeptSegment(segs[i]) && e == Entry(IntKey(i), Str(segs[i]));
        KeptSegmentListed(s, i);
      }
    }
  }

  /** Any number of trailing commas leaves the parsed list, keys included, unchanged. */
  lemma {:induction false} TrailingCommasIgnored(s: string, n: nat)
    ensures ImageIdsFromString(s + Commas(n)) == ImageIdsFromString(s)
  {
    TrimIsRedundant(s);
    TrimIsRedundant(s + Commas(n));
    FilterIgnoresTrailingCommas(s, n);
  }

  /** `array_filter` over the five segments of the worked example drops the third and the fifth. */
  lemma FilterFiveEntries(e0: Entry, e1: Entry, e2: Entry, e3: Entry, e4: Entry)
    requires Truthy(e0.value) && Truthy(e1.value) && !Truthy(e2.value) && Truthy(e3.value) && !Truthy(e4.value)
    ensures ArrayFilter([e0, e1, e2, e3, e4]) == [e0, e1, e3]
  {
    ArrayFilterCons(e4, []);
    ArrayFilterCons(e3, [e4]);
    ArrayFilterCons(e2, [e3, e4]);
    ArrayFilterCons(e1, [e2, e3, e4]);
    ArrayFilterCons(e0, [e1, e2, e3, e4]);
    assert [e4] + [] == [e4];
  }

  /** The five segments of the worked example. */
  lemma ExampleSegments()
    ensures Explode(Comma, "12,47,,90,") == ["12", "47", "", "90", ""]
  {
    var parts := ["12", "47", "", "90", ""];
    assert Implode(Comma, parts) == "12,47,,90,";
    ExplodeImplode(Comma, parts);
  }

  /** The worked example: an empty segment and the trailing comma disappear, keys 0, 1 and 3 remain. */
  lemma ExampleImageList()
    ensures ImageIdsFromString("12,47,,90,") ==
      [Entry(IntKey(0), Str("12")), Entry(IntKey(1), Str("47")), Entry(IntKey(3), Str("90"))]
  {
    var parts := ["12", "47", "", "90", ""];
    ExampleSegments();
    TrimIsRedundant("12,47,,90,");
    var e0, e1, e2, e3, e4 :=
      Entry(IntKey(0), Str("12")), Entry(IntKey(1), Str("47")), Entry(IntKey(2), Str("")),
      Entry(IntKey(3), Str("90")), Entry(IntKey(4), Str(""));
    assert ListArray(parts) == [e0, e1, e2, e3, e4];
    FilterFiveEntries(e0, e1, e2, e3, e4);
  }

  /** The two segments of "0,5". */
  lemma ExampleZeroSegments()
    ensures Explode(Comma, "0,5") == ["0", "5"]
  {
    assert Implode(Comma, ["0", "5"]) == "0,5";
    ExplodeImplode(Comma, ["0", "5"]);
  }

  /** `array_filter` over two entries of which only the second is truthy. */
  lemma FilterDropsFirstOfTwo(e0: Entry, e1: Entry)
    requires !Truthy(e0.value) && Truthy(e1.value)
    ensures ArrayFilter([e0, e1]) == [e1]
  {
    ArrayFilterCons(e1, []);
    ArrayFilterCons(e0, [e1]);
    assert [e1] + [] == [e1];
  }

  /** A "0" segment is dropped like an empty one; the key of what follows still counts it. */
  lemma ExampleZeroDropped()
    ensures ImageIdsFromString("0,5") == [Entry(IntKey(1), Str("5"))]
  {
    ExampleZeroSegments();
    TrimIsRedundant("0,5");
    var e0, e1 := Entry(IntKey(0), Str("0")), Entry(IntKey(1), Str("5"));
    assert ListArray(["0", "5"]) == [e0, e1];
    FilterDropsFirstOfTwo(e0, e1);
  }

  /** A string yields some image ID exactly when one of its segments is neither "" nor "0". */
  lemma StringHasImagesIff(s: string)
    ensures ImageIdsFromString(s) != [] <==> exists seg :: seg in Explode(Comma, s) && KeptSegment(seg)
  {
    var segs := Explode(Comma, s);
    if exists seg :: seg in segs && KeptSegment(seg) {
      var seg :| seg in segs && KeptSegment(seg);
      var i :| 0 <= i < |segs| && segs[i] == seg;
      KeptSegmentListed(s, i);
    }
    if ImageIdsFromString(s) != [] {
      var i := ListedIsKeptSegment(s, ImageIdsFromString(s)[0]);
      assert segs[i] in segs;
    }
  }

  /**
    A post has images exactly when its meta value is a non-empty array, or a string with at
    least one comma-separated segment other than "" and "0".
  */
  lemma HasImagesIff(meta: MetaValue)
    ensures HasPortfolioImages(meta) <==>
      || (meta.MetaArray? && meta.a != [])
      || (meta.MetaScalar? && meta.v.Str? && exists seg :: seg in Explode(Comma, meta.v.s) && KeptSegment(seg))
  {
    if meta.MetaScalar? && meta.v.Str? {
      StringHasImagesIff(meta.v.s);
    }
  }

  // =======================================================================================
  // Query arguments
  // =======================================================================================

  datatype MetaClause = MetaClause(key: string, value: string)

  datatype TaxClause = TaxClause(taxonomy: string, field: string, terms: seq<int>)

  datatype TaxQuery = TaxQuery(relation: string, clauses: seq<TaxClause>)

  /** The argument array handed to `get_posts`; `None` stands for a key the helper leaves unset. */
  datatype PostsQuery = PostsQuery(
    postType: string,
    postStatus: Option<string>,
    postsPerPage: int,
    orderBy: Option<string>,
    order: Option<string>,
    paged: Option<int>,
    metaQuery: Option<seq<MetaClause>>,
    postNotIn: Option<seq<PostId>>,
    taxQuery: Option<TaxQuery>)

  /** What `get_option('filterable_portfolio')` returned: `None` unless it is an array. */
  type Options = Option<map<string, Scalar>>

  /** The caller's argument array. */
  type Args = map<string, Scalar>

  const FeaturedClause: MetaClause := MetaClause("_is_featured_project", "yes")

  /** The argument `k` is set and `is_numeric`. */
  predicate NumericArg(args: Args, k: string, conv: Conversions)
    ensures NumericArg(args, k, conv) <==>
      k in args && (args[k].Int? || (args[k].Str? && conv.isNumericString(args[k].s)))
  {
    IsSet(args, k) && IsNumeric(args[k], conv)
  }

  /** The argument `featured` is set and loosely equal to `true`. */
  predicate FeaturedRequested(args: Args)
    ensures FeaturedRequested(args) <==>
      "featured" in args && args["featured"] !in {Null, Bool(false), Int(0), Str(""), Str("0")}
  {
    IsSet(args, "featured") && Truthy(args["featured"])
  }

  /**
    The arguments `get_portfolios` passes to `get_posts`: published portfolio posts, paging and
    ordering from the stored options (no limit, by ID, descending when unset), `per_page` and
    `page` overridden by numeric caller arguments only, and the featured-only meta filter exactly
    when the caller asks for it.
  */
  function PortfolioQuery(options: Options, args: Args, conv: Conversions): (q: PostsQuery)
    ensures q.postType == PostType && q.postStatus == Some("publish")
    ensures q.postsPerPage ==
      if NumericArg(args, "per_page", conv) then IntVal(args["per_page"], conv)
      else if IsSetIn(options, "per_page") then IntVal(options.value["per_page"], conv)
      else -1
    ensures q.orderBy == Some(if IsSetIn(options, "orderby") then conv.escAttr(options.value["orderby"]) else "ID")
    ensures q.order == Some(if IsSetIn(options, "order") then conv.escAttr(options.value["order"]) else "DESC")
    ensures q.paged.Some? <==> NumericArg(args, "page", conv)
    ensures q.paged.Some? ==> q.paged.value == IntVal(args["page"], conv)
    ensures q.metaQuery.Some? <==> FeaturedRequested(args)
    ensures q.metaQuery.Some? ==> q.metaQuery.value == [FeaturedClause]
    ensures q.postNotIn.None? && q.taxQuery.None?
  {
    var perPage := if IsSetIn(options, "per_page") then IntVal(options.value["per_page"], conv) else -1;
    var orderBy := if IsSetIn(options, "orderby") then conv.escAttr(options.value["orderby"]) else "ID";
    var order := if IsSetIn(options, "order") then conv.escAttr(options.value["order"]) else "DESC";
    var initial := PostsQuery(PostType, Some("publish"), perPage, Some(orderBy), Some(order), None, None, None, None);
    var withPerPage :=
      if NumericArg(args, "per_page", conv) then initial.(postsPerPage := IntVal(args["per_page"], conv)) else initial;
    var withPage :=
      if NumericArg(args, "page", conv) then withPerPage.(paged := Some(IntVal(args["page"], conv))) else withPerPage;
    if FeaturedRequested(args) then withPage.(metaQuery := Some([FeaturedClause])) else withPage
  }

  /** With no stored options and no paging or featured arguments, the hard-coded defaults apply. */
  lemma DefaultPortfolioQuery(args: Args, conv: Conversions)
    requires !IsSet(args, "per_page") && !IsSet(args, "page") && !IsSet(args, "featured")
    ensures PortfolioQuery(None, args, conv) ==
      PostsQuery("portfolio", Some("publish"), -1, Some("ID"), Some("DESC"), None, None, None, None)
  {
  }

  /** A non-numeric `per_page` or `page` argument is ignored: the query is as if it were absent. */
  lemma NonNumericOverrideIgnored(options: Options, args: Args, k: string, conv: Conversions)
    requires k == "per_page" || k == "page"
    requires k in args && !IsNumeric(args[k], conv)
    ensures PortfolioQuery(options, args, conv) == PortfolioQuery(options, args - {k}, conv)
  {
  }

  /**
    A numeric `per_page` argument (an integer or a string `is_numeric` accepts) wins over the
    stored option, whatever that is.
  */
  lemma NumericPerPageWins(options: Options, args: Args, conv: Conversions)
    requires NumericArg(args, "per_page", conv)
    ensures PortfolioQuery(options, args, conv).postsPerPage == IntVal(args["per_page"], conv)
  {
  }

  /** A shortcode attribute such as per_page="6" overrides the stored option when `is_numeric` accepts it. */
  lemma NumericStringPerPageWins(options: Options, args: Args, conv: Conversions)
    requires conv.isNumericString("6")
    ensures PortfolioQuery(options, args["per_page" := Str("6")], conv).postsPerPage == conv.intvalString("6")
  {
  }

  /**
    `featured` is compared loosely with `true`: the strings "false" and "no" switch the filter
    on, while "0", "" and `false` leave it off.
  */
  lemma LooseFeaturedValues(options: Options, args: Args, conv: Conversions)
    ensures PortfolioQuery(options, args["featured" := Str("false")], conv).metaQuery == Some([FeaturedClause])
    ensures PortfolioQuery(options, args["featured" := Str("no")], conv).metaQuery == Some([FeaturedClause])
    ensures PortfolioQuery(options, args["featured" := Str("0")], conv).metaQuery.None?
    ensures PortfolioQuery(options, args["featured" := Str("")], conv).metaQuery.None?
    ensures PortfolioQuery(options, args["featured" := Bool(false)], conv).metaQuery.None?
  {
  }

  /** A term as `get_the_terms` and `get_terms` return it. */
  datatype Term = Term(termId: int, name: string)

  /** What `get_the_terms` returned: an array of terms, `false`, or an error object. */
  datatype PostTerms = Attached(terms: seq<Term>) | NoneAttached | LookupError(message: string)

  /** `wp_list_pluck($terms, 'term_id')` */
  function TermIds(terms: seq<Term>): (ids: seq<int>)
    ensures |ids| == |terms| && forall i :: 0 <= i < |ids| ==> ids[i] == terms[i].termId
  {
    seq(|terms|, i requires 0 <= i < |terms| => terms[i].termId)
  }

  /** `$args['tax_query'][] = $clause` */
  function AppendTaxClause(q: PostsQuery, clause: TaxClause): (r: PostsQuery)
    requires q.taxQuery.Some?
    ensures r.taxQuery == Some(TaxQuery(q.taxQuery.value.relation, q.taxQuery.value.clauses + [clause]))
    ensures r.(taxQuery := q.taxQuery) == q
  {
    q.(taxQuery := Some(q.taxQuery.value.(clauses := q.taxQuery.value.clauses + [clause])))
  }

  /**
    The arguments `get_related_portfolios` passes to `get_posts` for the post `postId`:
    portfolio posts other than that one, as many as the stored option says (3 when unset),
    sharing a category OR a skill; one clause per taxonomy whose lookup returned an array,
    categories first.
  */
  function RelatedQuery(postId: PostId, postTerms: (PostId, string) -> PostTerms, options: Options, conv: Conversions)
    : (q: PostsQuery)
    ensures q.postType == PostType && q.postNotIn == Some([postId])
    ensures q.postsPerPage ==
      if IsSetIn(options, "related_projects_number") then IntVal(options.value["related_projects_number"], conv) else 3
    ensures q.postStatus.None? && q.orderBy.None? && q.order.None? && q.paged.None? && q.metaQuery.None?
    ensures q.taxQuery.Some? && q.taxQuery.value.relation == "OR"
    ensures var cats, skills, cs := postTerms(postId, Category), postTerms(postId, Skill), q.taxQuery.value.clauses;
      && |cs| == (if cats.Attached? then 1 else 0) + (if skills.Attached? then 1 else 0)
      && (cats.Attached? ==> cs[0] == TaxClause(Category, "id", TermIds(cats.terms)))
      && (skills.Attached? ==> cs[|cs| - 1] == TaxClause(Skill, "id", TermIds(skills.terms)))
  {
    var categories := postTerms(postId, Category);
    var skills := postTerms(postId, Skill);
    var perPage :=
      if IsSetIn(options, "related_projects_number") then IntVal(options.value["related_projects_number"], conv) else 3;
    var initial := PostsQuery(PostType, None, perPage, None, None, None, None, Some([postId]), Some(TaxQuery("OR", [])));
    var withCategories :=
      if categories.Attached? then AppendTaxClause(initial, TaxClause(Category, "id", TermIds(categories.terms)))
      else initial;
    if skills.Attached? then AppendTaxClause(withCategories, TaxClause(Skill, "id", TermIds(skills.terms)))
    else withCategories
  }

  /**
    The related-posts clauses name each portfolio taxonomy at most once and nothing else, and
    a taxonomy is named exactly when its lookup returned an array.
  */
  lemma RelatedClausesPerTaxonomy(postId: PostId, postTerms: (PostId, string) -> PostTerms, options: Options, conv: Conversions)
    ensures var cs := RelatedQuery(postId, postTerms, options, conv).taxQuery.value.clauses;
      && (forall i :: 0 <= i < |cs| ==> cs[i].taxonomy in {Category, Skill} && cs[i].field == "id")
      && (forall i, j :: 0 <= i < j < |cs| ==> cs[i].taxonomy != cs[j].taxonomy)
      && ((exists i :: 0 <= i < |cs| && cs[i].taxonomy == Category) <==> postTerms(postId, Category).Attached?)
      && ((exists i :: 0 <= i < |cs| && cs[i].taxonomy == Skill) <==> postTerms(postId, Skill).Attached?)
  {
  }

  // =======================================================================================
  // Term lists
  // =======================================================================================

  /** The arguments of a taxonomy-level `get_terms` call. */
  datatype TermsRequest = TermsRequest(taxonomy: string, hideEmpty: bool)

  /** What a term query returned: an array of terms or an error object. */
  datatype TermsResponse = Found(terms: seq<Term>) | Failed(message: string)

  /** An error becomes the empty list; an array, empty or not, is returned as it is. */
  function TermsOrEmpty(response: TermsResponse): (terms: seq<Term>)
    ensures response.Failed? ==> terms == []
    ensures response.Found? ==> terms == response.terms
  {
    match response
    case Failed(_) => []
    case Found(ts) => if |ts| > 0 then ts else []
  }

  /** `get_portfolio_categories`: the non-empty category terms, or none when the host reports an error. */
  function PortfolioCategories(getTerms: TermsRequest -> TermsResponse): (terms: seq<Term>)
    ensures getTerms(TermsRequest(Category, true)).Failed? ==> terms == []
    ensures getTerms(TermsRequest(Category, true)).Found? ==> terms == getTerms(TermsRequest(Category, true)).terms
  {
    TermsOrEmpty(getTerms(TermsRequest(Category, true)))
  }

  /** `get_portfolio_skills`: the non-empty skill terms, or none when the host reports an error. */
  function PortfolioSkills(getTerms: TermsRequest -> TermsResponse): (terms: seq<Term>)
    ensures getTerms(TermsRequest(Skill, true)).Failed? ==> terms == []
    ensures getTerms(TermsRequest(Skill, true)).Found? ==> terms == getTerms(TermsRequest(Skill, true)).terms
  {
    TermsOrEmpty(getTerms(TermsRequest(Skill, true)))
  }

  /** A post as far as the helper looks at it. */
  datatype Post = Post(id: PostId)

  /** `wp_list_pluck($portfolios, 'ID')` */
  function PostIds(posts: seq<Post>): (ids: seq<PostId>)
    ensures |ids| == |posts| && forall i :: 0 <= i < |ids| ==> ids[i] == posts[i].id
  {
    seq(|posts|, i requires 0 <= i < |posts| => posts[i].id)
  }

  /**
    `get_categories_from_portfolios`: the host's category lookup for the IDs of the given
    posts, in their order, passed back untouched (an error included).
  */
  function CategoriesFromPortfolios(posts: seq<Post>, objectTerms: (seq<PostId>, string) -> TermsResponse)
    : (r: TermsResponse)
    ensures forall ids :: |ids| == |posts| && (forall i :: 0 <= i < |ids| ==> ids[i] == posts[i].id) ==>
      r == objectTerms(ids, Category)
  {
    var ids := PostIds(posts);
    assert forall other: seq<PostId> :: |other| == |posts| && (forall i :: 0 <= i < |other| ==> other[i] == posts[i].id) ==> other == ids;
    objectTerms(ids, Category)
  }

  // =======================================================================================
  // Request and theme context
  // =======================================================================================

  /** The host's conditional tags for the current request. */
  datatype RequestContext = RequestContext(
    isSingular: string -> bool,
    isPostTypeArchive: string -> bool,
    isTax: string -> bool)

  /** The `Name` and `Template` headers of the active theme. */
  datatype Theme = Theme(name: string, template: string)

  /** `is_single_portfolio` */
  function IsSinglePortfolio(ctx: RequestContext): (single: bool)
    ensures single <==> ctx.isSingular(PostType)
  {
    ctx.isSingular(PostType)
  }

  /** `is_portfolio_archive`: the portfolio archive, or a category or skill listing. */
  function IsPortfolioArchive(ctx: RequestContext): (archive: bool)
    ensures archive <==> ctx.isPostTypeArchive(PostType) || ctx.isTax(Category) || ctx.isTax(Skill)
  {
    ctx.isPostTypeArchive(PostType) || ctx.isTax(Category) || ctx.isTax(Skill)
  }

  const SingleTemplates: seq<string> := ["single-portfolio.php"]

  const ArchiveTemplates: seq<string> := ["archive-portfolio.php", "taxonomy-portfolio_cat.php", "taxonomy-portfolio_skill.php"]

  /** `has_single_template`: the host's template lookup found a single-portfolio template. */
  function HasSingleTemplate(locate: seq<string> -> string): (has: bool)
    ensures has <==> locate(SingleTemplates) != ""
  {
    locate(SingleTemplates) != ""
  }

  /** `has_archive_template`: the host's template lookup found any of the three archive templates. */
  function HasArchiveTemplate(locate: seq<string> -> string): (has: bool)
    ensures has <==> locate(ArchiveTemplates) != ""
  {
    locate(ArchiveTemplates) != ""
  }

  /** `is_shapla_theme_activate`: the Shapla theme itself or a child theme of it is active. */
  function IsShaplaThemeActive(theme: Theme): (active: bool)
    ensures active <==> theme.template == "shapla" || theme.name == "Shapla"
  {
    theme.template == "shapla" || theme.name == "Shapla"
  }

  /** `support_archive_template`: terms are shown as links when archives can be rendered. */
  function SupportsArchiveTemplate(locate: seq<string> -> string, theme: Theme): (supports: bool)
    ensures supports <==> locate(ArchiveTemplates) != "" || theme.template == "shapla" || theme.name == "Shapla"
  {
    HasArchiveTemplate(locate) || IsShaplaThemeActive(theme)
  }

  /**
    The host's template lookup answers "" exactly when none of the candidates is among the
    theme's files.
  */
  ghost predicate LocatesIn(locate: seq<string> -> string, files: set<string>) {
    forall names :: locate(names) == "" <==> forall n :: n in names ==> n !in files
  }

  /** Under such a lookup, archive support means one of the three archive files, or Shapla. */
  lemma ArchiveSupportFromFiles(locate: seq<string> -> string, files: set<string>, theme: Theme)
    requires LocatesIn(locate, files)
    ensures SupportsArchiveTemplate(locate, theme) <==>
      || "archive-portfolio.php" in files
      || "taxonomy-portfolio_cat.php" in files
      || "taxonomy-portfolio_skill.php" in files
      || IsShaplaThemeActive(theme)
  {
  }
}
