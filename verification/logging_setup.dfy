/**
 * xilma/logging_setup.py: which record attributes count as "extras", how the
 * `LOG_FORMAT` setting selects the output handlers, and how `setup_logging`
 * installs them on the root logger. The formatters themselves (timestamps,
 * `json.dumps`) are not modelled; a handler is identified by its format.
 */
module LoggingSetup {
  import opened Wrappers
  import opened Errors
  import Text

  /** The attributes every `LogRecord` carries; anything else was passed as `extra=`. */
  const StandardRecordAttrs: set<string> := {
    "name", "msg", "args", "levelname", "levelno", "pathname", "filename", "module",
    "exc_info", "exc_text", "stack_info", "lineno", "funcName", "created", "msecs",
    "relativeCreated", "thread", "threadName", "processName", "process"
  }

  // ---------------------------------------------------------------------------
  // _extract_extras

  /**
   * The extras of a record whose `__dict__` items are `attrs`, in order. A dict
   * never repeats a key, so `extras[key] = value` appends.
   */
  function Extras<V>(attrs: seq<(string, V)>): (r: seq<(string, V)>)
    ensures |r| <= |attrs|
  {
    if attrs == [] then []
    else
      var init := Extras(attrs[..|attrs| - 1]);
      var last := attrs[|attrs| - 1];
      if last.0 in StandardRecordAttrs then init else init + [last]
  }

  predicate DistinctKeys<V>(attrs: seq<(string, V)>) {
    forall i, j :: 0 <= i < j < |attrs| ==> attrs[i].0 != attrs[j].0
  }

  /** An item is kept exactly when its key is not a standard attribute; nothing is added or altered. */
  lemma {:induction false} ExtrasMeaning<V>(attrs: seq<(string, V)>)
    ensures forall p :: p in Extras(attrs) <==> p in attrs && p.0 !in StandardRecordAttrs
  {
    if attrs != [] {
      var init := attrs[..|attrs| - 1];
      ExtrasMeaning(init);
      assert attrs == init + [attrs[|attrs| - 1]];
    }
  }

  lemma ExtrasFrom<V>(attrs: seq<(string, V)>, i: nat)
    requires i < |Extras(attrs)|
    ensures Extras(attrs)[i] in attrs
  {
    ExtrasMeaning(attrs);
    var e := Extras(attrs);
    assert e[i] in e;
  }

  /** Filtering keeps the record's order: the extras of a concatenation are the concatenated extras. */
  lemma {:induction false} ExtrasAppend<V>(a: seq<(string, V)>, b: seq<(string, V)>)
    ensures Extras(a + b) == Extras(a) + Extras(b)
    decreases |b|
  {
    if b == [] {
      assert a + b == a;
    } else {
      var init := b[..|b| - 1];
      ExtrasAppend(a, init);
      assert (a + b)[..|a + b| - 1] == a + init;
      assert (a + b)[|a + b| - 1] == b[|b| - 1];
    }
  }

  /** The extras of a dict are a dict: no key is repeated. */
  lemma {:induction false} ExtrasDistinct<V>(attrs: seq<(string, V)>)
    requires DistinctKeys(attrs)
    ensures DistinctKeys(Extras(attrs))
  {
    if attrs != [] {
      var init := attrs[..|attrs| - 1];
      var last := attrs[|attrs| - 1];
      assert DistinctKeys(init);
      ExtrasDistinct(init);
      ExtrasMeaning(init);
      if last.0 !in StandardRecordAttrs {
        var r := Extras(init) + [last];
        forall i, j | 0 <= i < j < |r| ensures r[i].0 != r[j].0 {
          if j == |r| - 1 {
            ExtrasFrom(init, i);
            var k :| 0 <= k < |init| && init[k] == r[i];
            assert attrs[k] == init[k];
          }
        }
      }
    }
  }

  /** The loop of `_extract_extras`. */
  method ExtractExtras<V>(attrs: seq<(string, V)>) returns (extras: seq<(string, V)>)
    ensures extras == Extras(attrs)
  {
    extras := [];
    for i := 0 to |attrs|
      invariant extras == Extras(attrs[..i])
    {
      assert attrs[..i + 1][..i] == attrs[..i];
      var (key, value) := attrs[i];
      if key in StandardRecordAttrs {
        continue;
      }
      extras := extras + [(key, value)];
    }
    assert attrs[..|attrs|] == attrs;
  }

  // ---------------------------------------------------------------------------
  // _parse_formats

  /** `_parse_formats`: `both`/`all`, a comma list, or a single format, after stripping and lower-casing. */
  function ParseFormats(fmt: string): (r: seq<string>)
    ensures forall f :: f in r ==> Text.NoUpper(f) && ',' !in f
    ensures r == [] ==> ',' in fmt
  {
    var lowered := Text.Lower(Text.Strip(fmt));
    LoweredFacts(fmt);
    if lowered == "both" || lowered == "all" then
      FormatNameNoUpper("text");
      FormatNameNoUpper("json");
      ["text", "json"]
    else if ',' in lowered then Text.CsvItems(lowered)
    else [lowered]
  }

  /** The stripped, lower-cased setting has no capital, a comma only where the setting has one, and CSV items of the same kind. */
  lemma LoweredFacts(fmt: string)
    ensures var lowered := Text.Lower(Text.Strip(fmt));
      && Text.NoUpper(lowered)
      && (',' in lowered ==> ',' in fmt)
      && (forall f :: f in Text.CsvItems(lowered) ==> Text.NoUpper(f))
  {
    var lowered := Text.Lower(Text.Strip(fmt));
    Text.LowerNoUpper(Text.Strip(fmt));
    CommaLowered(fmt);
    ItemsNoUpper(lowered);
  }

  /** Lower-casing and stripping introduce no comma. */
  lemma CommaLowered(fmt: string)
    ensures ',' in Text.Lower(Text.Strip(fmt)) ==> ',' in fmt
  {
    var t := Text.Strip(fmt);
    var lowered := Text.Lower(t);
    if ',' in lowered {
      var j :| 0 <= j < |lowered| && lowered[j] == ',';
      assert t[j] == ',';
      Text.StripSubset(fmt);
    }
  }

  /** The names of the two formats are lower-case. */
  lemma FormatNameNoUpper(name: string)
    requires |name| == 4 && name[0] in "tj" && name[1] in "es" && name[2] in "xo" && name[3] in "tn"
    ensures Text.NoUpper(name)
  {
  }

  /** The CSV items of text without capitals have none either. */
  lemma ItemsNoUpper(s: string)
    requires Text.NoUpper(s)
    ensures forall f :: f in Text.CsvItems(s) ==> Text.NoUpper(f)
  {
    Text.CsvItemsChars(s);
    forall f | f in Text.CsvItems(s) ensures Text.NoUpper(f) {
      var i :| 0 <= i < |Text.CsvItems(s)| && Text.CsvItems(s)[i] == f;
      forall k | 0 <= k < |f| ensures !('A' <= f[k] <= 'Z') {
        assert f[k] in s;
      }
    }
  }

  /** Format selection ignores case. */
  lemma ParseFormatsIgnoresCase(fmt: string)
    ensures ParseFormats(Text.Lower(fmt)) == ParseFormats(fmt)
  {
    Text.StripLower(fmt);
    Text.LowerIdempotent(Text.Strip(fmt));
  }

  /** A plain lower-case name other than `both` or `all` selects just itself. */
  lemma ParseFormatsSingle(a: string)
    requires a != [] && Text.NoSpace(a) && Text.NoUpper(a) && ',' !in a
    requires a != "both" && a != "all"
    ensures ParseFormats(a) == [a]
  {
    Text.StripNoSpace(a);
    Text.LowerNoUpper(a);
  }

  /** `both` or `all`, in any case and with any surrounding whitespace, installs the JSON handler and then the text handler. */
  lemma BothFormats(fmt: string)
    requires Text.Lower(Text.Strip(fmt)) == "both" || Text.Lower(Text.Strip(fmt)) == "all"
    ensures ParseFormats(fmt) == ["text", "json"]
    ensures Handlers(ParseFormats(fmt)) == [JsonHandler, TextHandler]
  {
    var formats := ParseFormats(fmt);
    assert "json" in formats && "text" in formats;
  }

  /** Two lower-case names separated by `", "` select exactly those two, in order. */
  lemma ParseFormatsPair(a: string, b: string)
    requires a != [] && b != []
    requires Text.NoSpace(a) && Text.NoSpace(b) && Text.NoUpper(a) && Text.NoUpper(b)
    requires ',' !in a && ',' !in b
    ensures ParseFormats(a + ", " + b) == [a, b]
  {
    var s := a + ", " + b;
    PairLowered(a, b);
    PairItems(a, b);
    assert s[|a|] == ',';
    assert ',' !in "both" && ',' !in "all";
  }

  lemma PairLowered(a: string, b: string)
    requires a != [] && b != []
    requires Text.NoSpace(a) && Text.NoSpace(b) && Text.NoUpper(a) && Text.NoUpper(b)
    ensures Text.Lower(Text.Strip(a + ", " + b)) == a + ", " + b
  {
    var s := a + ", " + b;
    assert !Text.IsSpace(s[0]) && !Text.IsSpace(s[|s| - 1]);
    assert Text.TrimLeft(s) == s;
    assert Text.TrimRight(s) == s;
    assert Text.NoUpper(s);
    Text.LowerNoUpper(s);
  }

  lemma PairItems(a: string, b: string)
    requires a != [] && b != [] && Text.NoSpace(a) && Text.NoSpace(b)
    requires ',' !in a && ',' !in b
    ensures Text.CsvItems(a + ", " + b) == [a, b]
  {
    var t := [' '] + b;
    var joined := a + ", " + b;
    CommaSpace(a, b, joined, t);
    assert Text.CsvItems(joined) == Text.CsvItems(a) + Text.CsvItems(t) by {
      Text.CsvItemsAppend(a, t);
    }
    assert Text.CsvItems(a) == [a] by {
      PlainItem(a);
    }
    assert Text.CsvItems(t) == [b] by {
      SpacedItem(b);
    }
  }

  lemma CommaSpace(a: string, b: string, joined: string, t: string)
    requires joined == a + ", " + b && t == [' '] + b
    ensures joined == a + [','] + t
  {
  }

  lemma PlainItem(a: string)
    requires a != [] && Text.NoSpace(a) && ',' !in a
    ensures Text.CsvItems(a) == [a]
  {
    Text.CsvItemsSingle(a);
    Text.StripNoSpace(a);
  }

  lemma SpacedItem(b: string)
    requires b != [] && Text.NoSpace(b) && ',' !in b
    ensures Text.CsvItems([' '] + b) == [b]
  {
    var t := [' '] + b;
    assert ',' !in t;
    Text.CsvItemsSingle(t);
    SpacedStrip(b);
  }

  lemma SpacedStrip(b: string)
    requires b != [] && Text.NoSpace(b)
    ensures Text.Strip([' '] + b) == b
  {
    var t := [' '] + b;
    assert t[1..] == b;
    assert !Text.IsSpace(b[0]) && !Text.IsSpace(b[|b| - 1]);
    assert Text.TrimLeft(t) == Text.TrimLeft(b) == b;
    assert Text.TrimRight(b) == b;
  }

  // ---------------------------------------------------------------------------
  // setup_logging

  /** A stream handler, by the formatter it was given. */
  datatype Handler = JsonHandler | TextHandler

  /** The handlers `setup_logging` installs for the selected formats, in order. */
  function Handlers(formats: seq<string>): (hs: seq<Handler>)
    ensures JsonHandler in hs <==> "json" in formats
    ensures TextHandler in hs <==> "text" in formats || "json" !in formats
    ensures 1 <= |hs| <= 2 && hs[0] == (if "json" in formats then JsonHandler else TextHandler)
    ensures |hs| == 2 ==> hs[0] != hs[1]
  {
    var json := if "json" in formats then [JsonHandler] else [];
    json + (if "text" in formats || json == [] then [TextHandler] else [])
  }

  /** The level names `Logger.setLevel` accepts, with their numbers, as in Python's `logging` module. */
  const LevelNumbers: map<string, int> := map[
    "CRITICAL" := 50, "FATAL" := 50, "ERROR" := 40, "WARN" := 30, "WARNING" := 30,
    "INFO" := 20, "DEBUG" := 10, "NOTSET" := 0]

  /** The root logger: its level and its handler list. */
  class RootLogger {
    var level: int
    var handlers: seq<Handler>

    /** A fresh root logger: level WARNING, no handler. */
    constructor()
      ensures level == 30 && handlers == []
    {
      level := 30;
      handlers := [];
    }

    /** `setLevel(name)`: an unknown level name raises `ValueError` and changes nothing. */
    method SetLevel(name: string) returns (raised: Option<Exception>)
      modifies this
      ensures handlers == old(handlers)
      ensures name in LevelNumbers ==> raised == None && level == LevelNumbers[name]
      ensures name !in LevelNumbers ==> raised == Some(ValueError(name)) && level == old(level)
    {
      if name !in LevelNumbers {
        return Some(ValueError(name));
      }
      level := LevelNumbers[name];
      return None;
    }

    /** `addHandler`: a handler already installed is not added twice. */
    method AddHandler(h: Handler)
      modifies this
      ensures level == old(level)
      ensures handlers == if h in old(handlers) then old(handlers) else old(handlers) + [h]
    {
      if h !in handlers {
        handlers := handlers + [h];
      }
    }
  }

  /** `root.handlers.clear()`, then `addHandler` for each new handler in turn. */
  method ReplaceHandlers(root: RootLogger, hs: seq<Handler>)
    requires forall i, j :: 0 <= i < j < |hs| ==> hs[i] != hs[j]
    modifies root
    ensures root.level == old(root.level) && root.handlers == hs
  {
    root.handlers := [];
    for i := 0 to |hs|
      invariant root.handlers == hs[..i]
      invariant root.level == old(root.level)
    {
      assert hs[i] !in hs[..i];
      root.AddHandler(hs[i]);
      assert hs[..i + 1] == hs[..i] + [hs[i]];
    }
    assert hs[..|hs|] == hs;
  }

  /**
   * `setup_logging(level, fmt)`: sets the root level from the upper-cased name,
   * then replaces the root's handlers wholesale by the ones the format selects.
   * An unknown level raises before any handler is touched.
   */
  method SetupLogging(root: RootLogger, level: string, fmt: string) returns (raised: Option<Exception>)
    modifies root
    ensures Text.Upper(level) !in LevelNumbers ==>
      raised == Some(ValueError(Text.Upper(level))) && root.level == old(root.level) && root.handlers == old(root.handlers)
    ensures Text.Upper(level) in LevelNumbers ==>
      raised == None && root.level == LevelNumbers[Text.Upper(level)] && root.handlers == Handlers(ParseFormats(fmt))
  {
    raised := root.SetLevel(Text.Upper(level));
    if raised.Some? {
      return;
    }
    var handlers := Handlers(ParseFormats(fmt));
    ReplaceHandlers(root, handlers);
  }

  /** Whatever the setting, at least one handler is installed, and JSON comes first when selected. */
  lemma SetupAlwaysHandles(fmt: string)
    ensures |Handlers(ParseFormats(fmt))| >= 1
    ensures "json" in ParseFormats(fmt) ==> Handlers(ParseFormats(fmt))[0] == JsonHandler
    ensures "json" !in ParseFormats(fmt) ==> Handlers(ParseFormats(fmt)) == [TextHandler]
  {
  }
}
