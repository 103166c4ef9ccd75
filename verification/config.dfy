/** The configuration the translation provider and the usage tracker read. */
module Config {
  import opened Wrappers

  /** The options of `EnjsonTranslationsOptions` that the modelled logic reads.
      The base URL, HTTP timeout, default locale and report interval only feed
      URL building, transport and timer wiring, which the model leaves out. */
  datatype Options = Options(
    projectId: string,
    cacheMinutes: int,
    namespaceDepth: int,
    localFallbackPath: Option<string>,
    enableUsageTracking: bool,
    usageReportBatchSize: int
  )

  /** The defaults the options class assigns. */
  const Defaults: Options := Options(
    projectId := "",
    cacheMinutes := 5,
    namespaceDepth := 1,
    localFallbackPath := None,
    enableUsageTracking := true,
    usageReportBatchSize := 200
  )
}
