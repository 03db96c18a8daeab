/** The parsed command line of process_arguments (konadl_cli.py:24-48).
    Parsing itself belongs to argparse and is not part of this model: the
    record below is what parse_args() hands back. */
module Arguments {

  datatype Option<T> = None | Some(value: T)

  /** An integer option whose argparse default is False (-n, -p). None is
      the default; Some(n) is what the user typed, which may be 0. */
  type IntArg = Option<int>

  /** Python truthiness of such an option: False and 0 are both falsy. */
  predicate Truthy(o: IntArg)
  {
    o.Some? && o.value != 0
  }

  datatype Args = Args(
    pages: IntArg,            // -n/--pages
    all: bool,                // -a/--all
    page: IntArg,             // -p/--page
    yandere: bool,            // -y/--yandere
    storage: Option<string>,  // -o/--storage, None for the default False
    separate: bool,           // --separate
    update: bool,             // -u/--update
    safe: bool,               // -s/--safe
    questionable: bool,       // -q/--questionable
    explicit: bool,           // -e/--explicit
    crawlers: int,            // -c/--crawlers
    downloaders: int,         // -d/--downloaders
    version: bool)            // -v/--version

  /** The record parse_args() returns for a bare invocation: every flag
      off, no -n, -p or -o, and 10 crawler and 20 downloader threads. */
  function Defaults(): (a: Args)
    ensures !AnyRating(a) && !HasScope(a) && !a.update && !a.version
    ensures a.storage.None? && !a.separate && !a.yandere
    ensures a.crawlers == 10 && a.downloaders == 20
  {
    Args(None, false, None, false, None, false, false, false, false, false, 10, 20, false)
  }

  predicate AnyRating(a: Args)
  {
    a.safe || a.questionable || a.explicit
  }

  /** Some fresh-crawl scope was asked for: -n, -a or -p, by truthiness. */
  predicate HasScope(a: Args)
  {
    Truthy(a.pages) || a.all || Truthy(a.page)
  }
}
