/** The page-interaction settings: a record of waiting times, all in milliseconds. Reading
    and writing a configuration file are declared but do nothing yet. */
module InteractionConfig {

  datatype PageInteractionConfig = PageInteractionConfig(
    newPageWait: int,          // extra wait after a click that opens a new page
    clickPreWait: int,         // wait before clicking
    inputPreWait: int,         // wait before typing
    quickWait: int,
    slowWait: int,
    selectorWaitTimeOut: int)  // how long waitForSelector may take

  /** A freshly constructed configuration. */
  function Default(): (c: PageInteractionConfig)
    ensures c.newPageWait == 1000 && c.clickPreWait == 1000 && c.inputPreWait == 1000
    ensures c.quickWait == 200 && c.slowWait == 2000
    ensures c.selectorWaitTimeOut == 5000
  {
    PageInteractionConfig(1000, 1000, 1000, 200, 2000, 5000)
  }

  /** `parse_config`: the file at `path` is not read and the configuration stays as it was. */
  function ParseConfig(c: PageInteractionConfig, path: string): (r: PageInteractionConfig)
    ensures r == c
  {
    c
  }

  /** `dump_config`: nothing is written and the configuration stays as it was. */
  function DumpConfig(c: PageInteractionConfig, path: string): (r: PageInteractionConfig)
    ensures r == c
  {
    c
  }
}
