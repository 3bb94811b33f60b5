/** The configuration the gateway reads from `current_app.config`, as one explicit record.
    Missing keys are not modelled: every field holds the value the code would read, with
    the code's fallback already applied. */
module Settings {
  import opened Params

  datatype Config = Config(
    /** configuration key (such as SOLR_SERVICE_SEARCH_HANDLER) to backend URL */
    urls: map<string, string>,
    defaultRows: int,                       // SOLR_SERVICE_DEFAULT_ROWS
    maxRows: int,                           // SOLR_SERVICE_MAX_ROWS
    timeAllowedMs: int,                     // SOLR_SERVICE_TIME_ALLOWED_MS, 0 when unset
    maxSnippets: int,                       // SOLR_SERVICE_MAX_SNIPPETS (code default 4)
    maxFragsize: int,                       // SOLR_SERVICE_MAX_FRAGSIZE (code default 200)
    disallowedFields: seq<string>,          // SOLR_SERVICE_DISALLOWED_FIELDS
    allowedFields: seq<string>,             // SOLR_SERVICE_ALLOWED_FIELDS
    allowedHighlightFields: seq<string>,    // SOLR_SERVICE_ALLOWED_HIGHLIGHTS_FIELDS
    allowedFacetFields: seq<string>,        // SOLR_SERVICE_ALLOWED_FACET_FIELDS
    allowedFacetPivot: seq<string>,         // SOLR_SERVICE_ALLOWED_FACET_PIVOT
    allowedStatsFields: seq<string>,        // SOLR_SERVICE_ALLOWED_STATS_FIELDS
    allowedSortFields: seq<string>,         // SOLR_SERVICE_ALLOWED_SORT_FIELDS
    defaultFields: seq<string>,             // SOLR_SERVICE_DEFAULT_FIELDS
    unhighlightablePublishers: seq<string>, // SOLR_SERVICE_DISALLOWED_HIGHLIGHTS_PUBLISHERS
    forwardedCookies: set<string>,          // SOLR_SERVICE_FORWARDED_COOKIES
    botTokens: seq<string>,                 // BOT_TOKENS
    injectedParams: Dict                    // SOLR_INJECT_QUERY_PARAMS
  )

  const SolrUrl := "http://localhost:8983/solr"

  /** The values of config.py (and of the code's defaults where config.py has none). */
  const Example := Config(
    urls := map[
      "SOLR_SERVICE_URL" := SolrUrl,
      "SOLR_SERVICE_TVRH_HANDLER" := SolrUrl + "/tvrh",
      "SOLR_SERVICE_SEARCH_HANDLER" := SolrUrl + "/select",
      "SOLR_SERVICE_QTREE_HANDLER" := SolrUrl + "/qtree",
      "SOLR_SERVICE_BIGQUERY_HANDLER" := SolrUrl + "/bigquery",
      "BOT_SOLR_SERVICE_SEARCH_HANDLER" := SolrUrl + "/select",
      "BOT_SOLR_SERVICE_BIGQUERY_HANDLER" := SolrUrl + "/bigquery"],
    defaultRows := 10,
    maxRows := 2000,
    timeAllowedMs := 0,
    maxSnippets := 4,
    maxFragsize := 200,
    disallowedFields := ["body", "full", "ack", "readers", "reader", "email"],
    allowedFields := [
      "abstract", "ack", "aff", "alternate_bibcode", "alternate_title",
      "arxiv_class", "author", "bibcode", "bibgroup", "bibstem",
      "citation_count", "copyright", "data", "database", "doctype", "doi",
      "first_author", "grant", "has", "id", "identifier", "indexstamp", "issue",
      "keyword", "lang", "orcid_other", "orcid_pub", "orcid_user", "page",
      "property", "pub", "pubdate", "read_count", "title", "vizier", "volume",
      "year"],
    allowedHighlightFields := ["title", "abstract"],
    allowedFacetFields := [
      "bibstem_facet", "author_facet_hier", "property", "keyword_facet", "year",
      "bibgroup_facet", "data_facet", "vizier_facet", "grant_facet_hier", "database",
      "simbad_object_facet_hier", "aff_facet_hier", "doctype_facet_hier",
      "first_author_facet_hier", "ned_object_facet_hier"],
    allowedFacetPivot := ["property", "year", "citation_count", "read_count", "year"],
    allowedStatsFields := ["citation_count", "read_count", "citation_count_norm"],
    allowedSortFields := [
      "id asc", "author_count asc", "bibcode asc", "citation_count asc",
      "citation_count_norm asc", "classic_factor asc", "first_author asc", "date asc",
      "entry_date asc", "read_count asc", "score asc", "id desc", "author_count desc",
      "bibcode desc", "citation_count desc", "citation_count_norm desc",
      "classic_factor desc", "first_author desc", "date desc", "entry_date desc",
      "read_count desc", "score desc"],
    defaultFields := [
      "id", "recid", "title", "abstract", "author", "bibcode", "identifier", "volume",
      "page", "bibstem", "doctype", "pubdate", "pub", "pub_raw", "citation_count",
      "read_count", "esources"],
    unhighlightablePublishers := ["ieee"],
    forwardedCookies := {"sroute"},
    botTokens := [],
    injectedParams := EmptyDict
  )
}
