/**
 * The quote-of-the-day screen: the category table, the request URL for a
 * category, the category label with its fallback, the refresh-button label, and
 * the `hitokoto` / `loading` / `refreshing` / `selectedType` state around a fetch.
 * The network request and its JSON decoding are not modelled: a fetch is
 * started by returning its URL and settled by an outcome given as input.
 */
module HomeScreen {
  import opened Optional

  /** Category code to its display name. */
  const TypeMap: map<string, string> := map[
    "all" := "所有类型",
    "a" := "动画",
    "b" := "漫画",
    "c" := "游戏",
    "d" := "文学",
    "e" := "原创",
    "f" := "来自网络",
    "g" := "其他",
    "h" := "影视",
    "i" := "诗词",
    "j" := "网易云",
    "k" := "哲学",
    "l" := "抖机灵"
  ]

  const AllTypes := "all"
  const Unknown := "未知"
  const BaseUrl := "https://v1.hitokoto.cn/"
  const CategoryQuery := "?c="
  const LabelPrefix := "获取新的"
  const LabelSuffix := "一言"

  /** What a JavaScript template literal writes for a missing map entry. */
  const Undefined := "undefined"

  /** Every display name is non-empty, so none of them is falsy. */
  lemma TypeNamesNonEmpty()
    ensures forall k :: k in TypeMap ==> TypeMap[k] != ""
  {
  }

  /** The URL requested for a category: the bare endpoint for "all", else a `c` query parameter. */
  function RequestUrl(kind: string): (url: string)
    ensures BaseUrl <= url
    ensures kind == AllTypes ==> url == BaseUrl
    ensures kind != AllTypes ==> BaseUrl + CategoryQuery <= url
    ensures kind != AllTypes ==> |url| == |BaseUrl + CategoryQuery| + |kind| && url[|BaseUrl + CategoryQuery|..] == kind
  {
    if kind == AllTypes then BaseUrl else BaseUrl + CategoryQuery + kind
  }

  /** No character that a query-string reader treats as the end of a value. */
  predicate PlainQueryValue(s: string)
  {
    forall i :: 0 <= i < |s| ==> s[i] != '&' && s[i] != '#'
  }

  /** A query value as a reader sees it: everything up to the next `&` or `#`. */
  function UntilDelimiter(s: string): (r: string)
    ensures r <= s
    ensures PlainQueryValue(r)
    ensures |r| == |s| || s[|r|] == '&' || s[|r|] == '#'
  {
    if s == [] || s[0] == '&' || s[0] == '#' then [] else [s[0]] + UntilDelimiter(s[1..])
  }

  /** A value without delimiters is read whole. */
  lemma {:induction false} UntilDelimiterKeepsPlain(s: string)
    requires PlainQueryValue(s)
    ensures UntilDelimiter(s) == s
  {
    if s != [] {
      assert PlainQueryValue(s[1..]) by {
        forall i | 0 <= i < |s[1..]| ensures s[1..][i] != '&' && s[1..][i] != '#' {
          assert s[1..][i] == s[i + 1];
        }
      }
      UntilDelimiterKeepsPlain(s[1..]);
    }
  }

  /**
   * The category a query-string reader finds in a request URL: "all" for the bare
   * endpoint, else the value of `c` up to the next `&` or `#` (percent escapes are
   * not decoded here).
   */
  function QueryCategory(url: string): Option<string>
  {
    var withQuery := BaseUrl + CategoryQuery;
    if url == BaseUrl then Some(AllTypes)
    else if withQuery <= url then Some(UntilDelimiter(url[|withQuery|..]))
    else None
  }

  /** The category is read back from its URL whenever it holds no `&` or `#`. */
  lemma RequestUrlRoundTrip(kind: string)
    requires PlainQueryValue(kind)
    ensures QueryCategory(RequestUrl(kind)) == Some(kind)
  {
    if kind != AllTypes {
      UntilDelimiterKeepsPlain(kind);
    }
  }

  /** Every category of the table is free of delimiters, so each one survives the round trip. */
  lemma TableKeysRoundTrip(kind: string)
    requires kind in TypeMap
    ensures QueryCategory(RequestUrl(kind)) == Some(kind)
  {
    RequestUrlRoundTrip(kind);
  }

  /** A value is read up to its first delimiter. */
  lemma UntilDelimiterStopsAt(s: string, i: nat)
    requires i < |s| && (s[i] == '&' || s[i] == '#') && PlainQueryValue(s[..i])
    ensures UntilDelimiter(s) == s[..i]
  {
  }

  /**
   * The category is put into the URL unencoded, so a category holding `&` or `#`
   * is read back only up to its first such character.
   */
  lemma UnencodedDelimiterTruncatesAt(kind: string, i: nat)
    requires kind != AllTypes
    requires i < |kind| && (kind[i] == '&' || kind[i] == '#') && PlainQueryValue(kind[..i])
    ensures QueryCategory(RequestUrl(kind)) == Some(kind[..i])
  {
    UntilDelimiterStopsAt(kind, i);
  }

  /** For example, the category `a&c=b` is read back as `a`. */
  lemma UnencodedDelimiterTruncates()
    ensures QueryCategory(RequestUrl("a&c=b")) == Some("a")
  {
    var withQuery := BaseUrl + CategoryQuery;
    var url := withQuery + "a&c=b";
    assert url[|withQuery|..] == "a&c=b";
    assert UntilDelimiter("a&c=b") == "a";
  }

  /** Distinct categories are requested with distinct URLs. */
  lemma RequestUrlInjective(a: string, b: string)
    requires RequestUrl(a) == RequestUrl(b)
    ensures a == b
  {
  }

  /** `typeMap[type] || '未知'`: the display name, or "unknown" when it is missing or empty. */
  function TypeText(kind: string): (text: string)
    ensures kind in TypeMap ==> text == TypeMap[kind]
    ensures kind !in TypeMap ==> text == Unknown
    ensures text != ""
  {
    TypeNamesNonEmpty();
    if kind in TypeMap && TypeMap[kind] != "" then TypeMap[kind] else Unknown
  }

  /** The refresh button's text for the selected category. */
  function RefreshLabel(selected: string): (caption: string)
    ensures LabelPrefix <= caption
    ensures selected == AllTypes ==> caption == LabelPrefix + LabelSuffix
    ensures selected != AllTypes && selected in TypeMap ==> caption == LabelPrefix + TypeText(selected) + LabelSuffix
    ensures selected !in TypeMap ==> caption == LabelPrefix + Undefined + LabelSuffix
  {
    if selected == AllTypes then LabelPrefix + LabelSuffix
    else LabelPrefix + (if selected in TypeMap then TypeMap[selected] else Undefined) + LabelSuffix
  }

  /** A quote as the endpoint returns it. */
  datatype Hitokoto = Hitokoto(
    hitokoto: string, from: string, fromWho: Option<string>,
    kind: string, length: int, createdAt: string)

  /** How a fetch ends: the decoded quote, or any error raised by the request or the decoding. */
  datatype FetchOutcome = Success(data: Hitokoto) | Failure

  /** The screen's state. */
  class QuoteScreen {
    var hitokoto: Option<Hitokoto>
    var loading: bool
    var refreshing: bool
    var selectedType: string

    /** The selection is always a category of the table: the selector offers only its keys. */
    predicate Valid()
      reads this
    {
      selectedType in TypeMap
    }

    constructor ()
      ensures Valid()
      ensures hitokoto == None && loading && !refreshing && selectedType == AllTypes
    {
      hitokoto := None;
      loading := true;
      refreshing := false;
      selectedType := AllTypes;
    }

    /** On mount, in the initial state, the screen fetches the current category: the bare endpoint. */
    method Mount() returns (url: string)
      requires hitokoto == None && loading && !refreshing && selectedType == AllTypes
      ensures url == BaseUrl
    {
      url := RequestUrl(selectedType);
    }

    /** Pull-to-refresh and the refresh button: mark refreshing, then fetch the current category. */
    method OnRefresh() returns (url: string)
      requires Valid()
      modifies this
      ensures Valid()
      ensures refreshing
      ensures url == RequestUrl(selectedType)
      ensures hitokoto == old(hitokoto) && loading == old(loading) && selectedType == old(selectedType)
    {
      refreshing := true;
      url := RequestUrl(selectedType);
    }

    /** Choosing a category selects it, shows the spinner and fetches that category. */
    method HandleTypeChange(kind: string) returns (url: string)
      requires kind in TypeMap
      modifies this
      ensures Valid()
      ensures selectedType == kind && loading
      ensures url == RequestUrl(kind)
      ensures hitokoto == old(hitokoto) && refreshing == old(refreshing)
    {
      selectedType := kind;
      loading := true;
      url := RequestUrl(kind);
    }

    /**
     * A fetch settles: on success the quote is replaced, on failure it is kept and
     * an error alert is raised; either way both busy flags are cleared.
     */
    method FetchSettled(outcome: FetchOutcome) returns (alerted: bool)
      requires Valid()
      modifies this
      ensures Valid()
      ensures !loading && !refreshing
      ensures alerted <==> outcome.Failure?
      ensures hitokoto == if outcome.Success? then Some(outcome.data) else old(hitokoto)
      ensures selectedType == old(selectedType)
    {
      alerted := false;
      match outcome {
        case Success(data) =>
          hitokoto := Some(data);
        case Failure =>
          alerted := true;
      }
      loading := false;
      refreshing := false;
    }

    /**
     * The refresh button's text. The selection is a table key, so the text always
     * names a category and never shows `undefined`.
     */
    method RefreshButtonText() returns (caption: string)
      requires Valid()
      ensures caption == RefreshLabel(selectedType)
      ensures caption != LabelPrefix + Undefined + LabelSuffix
      ensures selectedType != AllTypes ==> caption == LabelPrefix + TypeText(selectedType) + LabelSuffix
    {
      caption := RefreshLabel(selectedType);
    }
  }
}
