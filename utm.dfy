/** `generateUTMUrl` of apps/web/src/app/modules/campaigns/create/mock-data.ts: the campaign link
    with its UTM parameters, built in a `URLSearchParams` object. */
module Utm {
  import opened Wrappers
  import opened Percent
  import opened FormUrlencoded

  /** The part of `URLSearchParams` the link builder uses: its list of pairs, `append` and
      `toString`. */
  class SearchParams {
    var list: seq<Pair>

    constructor (init: seq<Pair>)
      ensures list == init
    {
      list := init;
    }

    method Append(name: string, value: string)
      modifies this
      ensures list == old(list) + [(name, value)]
    {
      list := list + [(name, value)];
    }

    function ToString(): string
      reads this
    {
      Serialize(list)
    }
  }

  predicate Truthy(s: Option<string>) { s.Some? && s.value != "" }

  /** The parameters of the link, in order. */
  function UtmPairs(source: string, medium: string, campaign: string, term: Option<string>, content: Option<string>): seq<Pair> {
    [("utm_source", source), ("utm_medium", medium), ("utm_campaign", campaign)]
      + (if Truthy(term) then [("utm_term", term.value)] else [])
      + (if Truthy(content) then [("utm_content", content.value)] else [])
  }

  method GenerateUtmUrl(baseUrl: string, source: string, medium: string, campaign: string,
                        term: Option<string>, content: Option<string>) returns (url: string)
    ensures url == baseUrl + "?" + Serialize(UtmPairs(source, medium, campaign, term, content))
  {
    var head := [("utm_source", source), ("utm_medium", medium), ("utm_campaign", campaign)];
    var params := new SearchParams(head);
    if Truthy(term) {
      params.Append("utm_term", term.value);
    }
    ghost var withTerm := params.list;
    assert withTerm == head + (if Truthy(term) then [("utm_term", term.value)] else []);
    if Truthy(content) {
      params.Append("utm_content", content.value);
    }
    assert params.list == withTerm + (if Truthy(content) then [("utm_content", content.value)] else []);
    assert params.list == UtmPairs(source, medium, campaign, term, content);
    url := baseUrl + "?" + params.ToString();
  }

  /** The three campaign parameters come first, in order and even when empty; `utm_term` follows
      exactly when the term is non-empty, then `utm_content` exactly when the content is, for three
      to five pairs. */
  lemma {:induction false} UtmPairsShape(source: string, medium: string, campaign: string, term: Option<string>, content: Option<string>)
    ensures var ps := UtmPairs(source, medium, campaign, term, content);
      && 3 <= |ps| <= 5
      && ps[..3] == [("utm_source", source), ("utm_medium", medium), ("utm_campaign", campaign)]
      && (("utm_term", term.GetOr("")) in ps <==> Truthy(term))
      && (("utm_content", content.GetOr("")) in ps <==> Truthy(content))
      && |ps| == 3 + (if Truthy(term) then 1 else 0) + (if Truthy(content) then 1 else 0)
      && (Truthy(term) ==> ps[3] == ("utm_term", term.value))
      && (Truthy(content) ==> ps[|ps| - 1] == ("utm_content", content.value))
  {
  }

  /** The link is the base URL, `?` and a query that parses back to exactly the UTM pairs. */
  lemma {:induction false} UtmUrlRoundTrip(baseUrl: string, source: string, medium: string, campaign: string,
                        term: Option<string>, content: Option<string>)
    ensures var url := baseUrl + "?" + Serialize(UtmPairs(source, medium, campaign, term, content));
      && url[..|baseUrl| + 1] == baseUrl + "?"
      && Parse(url[|baseUrl| + 1..]) == Some(UtmPairs(source, medium, campaign, term, content))
  {
    var q := Serialize(UtmPairs(source, medium, campaign, term, content));
    var url := baseUrl + "?" + q;
    assert url[|baseUrl| + 1..] == q;
    assert url[..|baseUrl| + 1] == baseUrl + "?";
    ParseSerialize(UtmPairs(source, medium, campaign, term, content));
  }
}
