/** The per-page audit record that the back end streams to the browser and
    that the browser scores, aggregates, exports and stores. Only the fields
    some modelled operation reads are kept. */
module Records {
  import opened Strings

  /** `status_code`: an HTTP status, or the text 'N/A' on the error path. */
  datatype StatusCode = Code(code: int) | NotAvailable

  /** `response_time`: the text `f"{t:.2f}s"`, held as hundredths of a second,
      or 'N/A' on the error path. */
  datatype ResponseTime = Elapsed(centis: nat) | NoTiming

  datatype AuditRecord = AuditRecord(
    url: string,
    statusCode: StatusCode,
    statusMessage: string,
    responseTime: ResponseTime,
    title: string,
    metaDescription: string,
    h1Count: nat,
    h2Count: nat,
    h3Count: nat,
    h4Count: nat,
    h1Samples: seq<string>,
    canonical: string,
    robots: string,
    wordCount: nat,
    internalLinks: nat,
    externalLinks: nat,
    brokenLinks: nat,
    imagesMissingAlt: nat,
    imagesNoDimensions: nat,
    imagesNotLazy: nat,
    totalImages: nat,
    https: bool,
    urlHasUnderscores: bool,
    redirectCount: nat,
    hasRobotsTxt: bool,
    hasSitemap: bool,
    hasViewport: bool,
    lang: string,
    hasOgTags: bool,
    ogTitle: string,
    hasTwitterCards: bool,
    hasSchema: bool,
    schemaTypes: seq<string>,
    pageSizeDeciKb: nat,
    renderBlockingCount: nat,
    warnings: seq<string>,
    duplicateOf: Option<string>)
}
