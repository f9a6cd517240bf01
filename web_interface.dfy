// The string-level helpers of the web settings portal: the content type of
// a served file, where a requested path is looked up, the HTML of the form
// inputs, and the lookup of a setting's value in the settings document. The
// HTTP server, SPIFFS and JSON parsing are replaced by values: the set of
// stored file names, and the settings document as a map from category name to
// its list of settings (None when the file does not parse).

module WebInterface {
  import opened Common

  // ---------------------------------------------------------------------------
  // get_content_type

  /** The suffixes get_content_type tests, in order, with their content types. */
  const ContentTypes: seq<(string, string)> := [
    (".htm", "text/html"), (".html", "text/html"), (".css", "text/css"),
    (".js", "application/javascript"), (".png", "image/png"), (".gif", "image/gif"),
    (".jpg", "image/jpeg"), (".bmp", "image/bmp"), (".ico", "image/x-icon"),
    (".xml", "text/xml"), (".pdf", "application/x-pdf"), (".zip", "application/x-zip"),
    (".gz", "application/x-gzip")]

  /** The type of the first entry of `table`, from index `i` on, whose suffix ends `filename`. */
  function FirstSuffixMatch(table: seq<(string, string)>, filename: string, i: nat): Option<string>
    decreases |table| - i
  {
    if i >= |table| then None
    else if EndsWith(filename, table[i].0) then Some(table[i].1)
    else FirstSuffixMatch(table, filename, i + 1)
  }

  /** `get_content_type`: the type of the file's suffix, or text/plain. */
  function ContentType(filename: string): string {
    if EndsWith(filename, ".htm") then "text/html"
    else if EndsWith(filename, ".html") then "text/html"
    else if EndsWith(filename, ".css") then "text/css"
    else if EndsWith(filename, ".js") then "application/javascript"
    else if EndsWith(filename, ".png") then "image/png"
    else if EndsWith(filename, ".gif") then "image/gif"
    else if EndsWith(filename, ".jpg") then "image/jpeg"
    else if EndsWith(filename, ".bmp") then "image/bmp"
    else if EndsWith(filename, ".ico") then "image/x-icon"
    else if EndsWith(filename, ".xml") then "text/xml"
    else if EndsWith(filename, ".pdf") then "application/x-pdf"
    else if EndsWith(filename, ".zip") then "application/x-zip"
    else if EndsWith(filename, ".gz") then "application/x-gzip"
    else "text/plain"
  }

  /** The chain of tests in get_content_type is the first match in the table, text/plain without one. */
  lemma ContentTypeByTable(filename: string)
    ensures ContentType(filename) == match FirstSuffixMatch(ContentTypes, filename, 0)
                                    case Some(t) => t
                                    case None => "text/plain"
  {
    var t := ContentTypes;
    assert FirstSuffixMatch(t, filename, 0) == if EndsWith(filename, ".htm") then Some(t[0].1) else FirstSuffixMatch(t, filename, 1);
    assert FirstSuffixMatch(t, filename, 1) == if EndsWith(filename, ".html") then Some(t[1].1) else FirstSuffixMatch(t, filename, 2);
    assert FirstSuffixMatch(t, filename, 2) == if EndsWith(filename, ".css") then Some(t[2].1) else FirstSuffixMatch(t, filename, 3);
    assert FirstSuffixMatch(t, filename, 3) == if EndsWith(filename, ".js") then Some(t[3].1) else FirstSuffixMatch(t, filename, 4);
    assert FirstSuffixMatch(t, filename, 4) == if EndsWith(filename, ".png") then Some(t[4].1) else FirstSuffixMatch(t, filename, 5);
    assert FirstSuffixMatch(t, filename, 5) == if EndsWith(filename, ".gif") then Some(t[5].1) else FirstSuffixMatch(t, filename, 6);
    assert FirstSuffixMatch(t, filename, 6) == if EndsWith(filename, ".jpg") then Some(t[6].1) else FirstSuffixMatch(t, filename, 7);
    assert FirstSuffixMatch(t, filename, 7) == if EndsWith(filename, ".bmp") then Some(t[7].1) else FirstSuffixMatch(t, filename, 8);
    assert FirstSuffixMatch(t, filename, 8) == if EndsWith(filename, ".ico") then Some(t[8].1) else FirstSuffixMatch(t, filename, 9);
    assert FirstSuffixMatch(t, filename, 9) == if EndsWith(filename, ".xml") then Some(t[9].1) else FirstSuffixMatch(t, filename, 10);
    assert FirstSuffixMatch(t, filename, 10) == if EndsWith(filename, ".pdf") then Some(t[10].1) else FirstSuffixMatch(t, filename, 11);
    assert FirstSuffixMatch(t, filename, 11) == if EndsWith(filename, ".zip") then Some(t[11].1) else FirstSuffixMatch(t, filename, 12);
    assert FirstSuffixMatch(t, filename, 12) == if EndsWith(filename, ".gz") then Some(t[12].1) else FirstSuffixMatch(t, filename, 13);
  }

  // ---------------------------------------------------------------------------
  // handle_file_read

  /** The outcome of a file request: not found, or which stored file is streamed and how. */
  datatype Response = NotFound | Served(file: string, contentType: string, cacheHeader: bool)

  /** The request path under "/www", with "index.html" added to a folder. */
  function WwwPath(path: string): (p: string)
    ensures StartsWith(p, "/www")
    ensures p[4..] == if EndsWith("/www" + path, "/") then path + "index.html" else path
  {
    var p := "/www" + path;
    if EndsWith(p, "/") then p + "index.html" else p
  }

  predicate Cacheable(p: string) {
    EndsWith(p, ".js") || EndsWith(p, ".css") || EndsWith(p, ".ico")
  }

  /**
   * The file served for a request: the compressed file, then the file, then
   * the same path outside "/www"; the content type is that of the
   * uncompressed path, and the cache header goes only with the two "/www"
   * lookups.
   */
  function FileRead(files: set<string>, path: string): (r: Response)
    ensures var p := WwwPath(path);
      && (r.NotFound? <==> p + ".gz" !in files && p !in files && p[4..] !in files)
      && (r.Served? ==> r.file in files && r.contentType == ContentType(p))
      && (r.Served? ==> r.file == p + ".gz"
                        || (p + ".gz" !in files && r.file == p)
                        || (p + ".gz" !in files && p !in files && r.file == p[4..]))
      && (r.Served? ==> (r.cacheHeader <==> Cacheable(p) && (p + ".gz" in files || p in files)))
  {
    var p := WwwPath(path);
    var contentType := ContentType(p);
    var cache := Cacheable(p);
    if p + ".gz" in files then Served(p + ".gz", contentType, cache)
    else if p in files then Served(p, contentType, cache)
    else if p[4..] in files then Served(p[4..], contentType, false)
    else NotFound
  }

  // ---------------------------------------------------------------------------
  // text_input_HTML and multi_input_html

  function InputType(settingType: string): (r: string)
    ensures r == "number" <==> settingType == "num"
    ensures r == "password" <==> settingType == "pass"
    ensures r != "number" && r != "password" ==> r == "text"
  {
    if settingType == "num" then "number"
    else if settingType == "pass" then "password"
    else "text"
  }

  /** The form input up to the value, before its closing quote. */
  function TextInputHead(id: string, val: string, settingType: string): string {
    "<input type=\"" + InputType(settingType) + "\" class=\"form-control\" id=\"" + id
    + "\" name=\"" + id + "\" aria-describedby=\"" + id + "help\" value=\"" + val
  }

  /** A text, number or password input, marked required exactly when `req` is set. */
  function TextInputHtml(id: string, val: string, settingType: string, req: bool): (r: string)
    ensures StartsWith(r, "<input type=\"" + InputType(settingType))
    ensures EndsWith(r, "required>") <==> req
  {
    var head := TextInputHead(id, val, settingType);
    var r := head + (if req then "\"required>" else "\">");
    TextInputShape(head, "<input type=\"" + InputType(settingType), req);
    r
  }

  lemma TextInputShape(head: string, prefix: string, req: bool)
    requires StartsWith(head, prefix)
    ensures var r := head + (if req then "\"required>" else "\">");
      StartsWith(r, prefix) && (EndsWith(r, "required>") <==> req)
  {
    var r := head + (if req then "\"required>" else "\">");
    assert r[..|prefix|] == head[..|prefix|];
    if !req {
      assert r[|r| - 2] == '"';
    } else {
      assert r[|r| - 9..] == "\"required>"[1..];
    }
  }

  function SelectOpen(id: string): string {
    "<select class=\"form-control\" id=\"" + id + "\" name=\"" + id + "\" aria-describedby=\"" + id + "help\">"
  }

  /** One option of a multiple-choice input; note there is no space before "selected". */
  function OptionHtml(option: string, val: string): string {
    "<option value=\"" + option + "\"" + (if option == val then "selected" else "") + ">" + option + "</option>"
  }

  /** One option per entry, in order. */
  function OptionsHtml(options: seq<string>, val: string): string
    decreases |options|
  {
    if options == [] then ""
    else OptionsHtml(options[..|options| - 1], val) + OptionHtml(options[|options| - 1], val)
  }

  /** The On/Off pair of a boolean input. */
  function BoolOptionsHtml(val: string): string {
    "<option value=\"true\"" + (if val == "true" then " selected" else "") + ">On</option>"
    + "<option value=\"false\"" + (if val == "false" then " selected" else "") + ">Off</option>"
  }

  function MultiInput(id: string, val: string, settingType: string, options: seq<string>): string {
    SelectOpen(id)
    + (if settingType == "multi" then OptionsHtml(options, val) else BoolOptionsHtml(val))
    + "</select>"
  }

  lemma {:induction false} OptionsHtmlConcat(a: seq<string>, b: seq<string>, val: string)
    ensures OptionsHtml(a + b, val) == OptionsHtml(a, val) + OptionsHtml(b, val)
    decreases |b|
  {
    if b != [] {
      var b' := b[..|b| - 1];
      assert (a + b)[..|a + b| - 1] == a + b';
      OptionsHtmlConcat(a, b', val);
    } else {
      assert a + b == a;
    }
  }

  /** The options of a "multi" input are those of its entries, one after the other. */
  lemma OptionsHtmlCons(option: string, rest: seq<string>, val: string)
    ensures OptionsHtml([option] + rest, val) == OptionHtml(option, val) + OptionsHtml(rest, val)
  {
    OptionsHtmlConcat([option], rest, val);
    assert OptionsHtml([option], val) == OptionsHtml([], val) + OptionHtml(option, val);
  }

  /** One `<option>` line of a multiple-choice setting, built piece by piece. */
  method OptionLine(option: string, val: string) returns (line: string)
    ensures line == OptionHtml(option, val)
  {
    line := "<option value=\"" + option + "\"";
    if option == val {
      line := line + "selected";
    }
    line := line + ">" + option + "</option>";
  }

  /** The On and Off options of a boolean setting, built piece by piece. */
  method BoolOptions(val: string) returns (options: string)
    ensures options == BoolOptionsHtml(val)
  {
    var on := "<option value=\"true\"";
    if val == "true" {
      on := on + " selected";
    }
    on := on + ">On</option>";
    var off := "<option value=\"false\"";
    if val == "false" {
      off := off + " selected";
    }
    off := off + ">Off</option>";
    options := on + off;
  }

  /** The option lines of a "multi" setting, one per entry, in order. */
  method OptionLines(options: seq<string>, val: string) returns (lines: string)
    ensures lines == OptionsHtml(options, val)
  {
    lines := "";
    var i := 0;
    while i < |options|
      invariant 0 <= i <= |options|
      invariant lines == OptionsHtml(options[..i], val)
    {
      var line := OptionLine(options[i], val);
      assert options[..i + 1][..i] == options[..i];
      lines := lines + line;
      i := i + 1;
    }
    assert options[..i] == options;
  }

  /** Builds the `<select>` of a multiple-choice or boolean setting. */
  method MultiInputHtml(id: string, val: string, settingType: string, options: seq<string>)
    returns (response: string)
    ensures response == MultiInput(id, val, settingType, options)
  {
    response := SelectOpen(id);
    var body;
    if settingType == "multi" {
      body := OptionLines(options, val);
    } else {
      body := BoolOptions(val);
    }
    response := response + body;
    response := response + "</select>";
  }

  // ---------------------------------------------------------------------------
  // load_setting

  datatype Entry = Entry(id: string, val: string)

  /** The settings document: each top-level category and its list of settings. */
  type Doc = map<string, seq<Entry>>

  /** A missing category reads as an empty list. */
  function Category(doc: Doc, name: string): seq<Entry> {
    if name in doc then doc[name] else []
  }

  /** The category scanned in round `i`: general, then advanced when present, then wifi. */
  function CategoryName(doc: Doc, i: nat): string {
    if i == 0 then "general"
    else if "advanced" in doc && i == 1 then "advanced"
    else "wifi"
  }

  /** The value of the first entry, from index `j` on, whose id is `setting`. */
  function FindFrom(entries: seq<Entry>, setting: string, j: nat): Option<string>
    decreases |entries| - j
  {
    if j >= |entries| then None
    else if entries[j].id == setting then Some(entries[j].val)
    else FindFrom(entries, setting, j + 1)
  }

  /** The scan of rounds `i` up to the number of top-level members of the document. */
  function ScanFrom(doc: Doc, setting: string, i: nat): Option<string>
    decreases |doc| - i
  {
    if i >= |doc| then None
    else match FindFrom(Category(doc, CategoryName(doc, i)), setting, 0)
      case Some(v) => Some(v)
      case None => ScanFrom(doc, setting, i + 1)
  }

  function SettingValue(doc: Option<Doc>, setting: string): string {
    match doc
    case None => ""
    case Some(d) => match ScanFrom(d, setting, 0) case Some(v) => v case None => ""
  }

  /** Returns a setting's value: "" when the document does not parse or has no such id. */
  method LoadSetting(doc: Option<Doc>, setting: string) returns (r: string)
    ensures r == SettingValue(doc, setting)
  {
    if doc.None? {
      return "";
    }
    var d := doc.value;
    var advanced := "advanced" in d;
    var i := 0;
    while i < |d|
      invariant 0 <= i <= |d|
      invariant ScanFrom(d, setting, 0) == ScanFrom(d, setting, i)
    {
      var settings: seq<Entry>;
      if i == 0 {
        settings := Category(d, "general");
      } else if advanced && i == 1 {
        settings := Category(d, "advanced");
      } else {
        settings := Category(d, "wifi");
      }
      assert settings == Category(d, CategoryName(d, i));
      var j := 0;
      while j < |settings|
        invariant 0 <= j <= |settings|
        invariant FindFrom(settings, setting, 0) == FindFrom(settings, setting, j)
      {
        if settings[j].id == setting {
          return settings[j].val;
        }
        j := j + 1;
      }
      i := i + 1;
    }
    return "";
  }

  lemma {:induction false} FindFromConcat(a: seq<Entry>, b: seq<Entry>, setting: string, j: nat)
    requires j <= |a|
    ensures FindFrom(a + b, setting, j) ==
      match FindFrom(a, setting, j) case Some(v) => Some(v) case None => FindFrom(b, setting, 0)
    decreases |a| - j
  {
    if j < |a| {
      FindFromConcat(a, b, setting, j + 1);
    } else {
      FindFromShift(a, b, setting, 0);
    }
  }

  lemma {:induction false} FindFromShift(a: seq<Entry>, b: seq<Entry>, setting: string, k: nat)
    requires k <= |b|
    ensures FindFrom(a + b, setting, |a| + k) == FindFrom(b, setting, k)
    decreases |b| - k
  {
    if k < |b| {
      FindFromShift(a, b, setting, k + 1);
    }
  }

  function FirstValue(entries: seq<Entry>, setting: string): string {
    match FindFrom(entries, setting, 0) case Some(v) => v case None => ""
  }

  /**
   * For a document with exactly the three categories, the value is that of
   * the first matching id in general, then advanced, then wifi; without the
   * advanced category, in general then wifi.
   */
  lemma SettingValueScanOrder(doc: Doc, setting: string)
    ensures doc.Keys == {"general", "advanced", "wifi"} ==>
      SettingValue(Some(doc), setting) == FirstValue(doc["general"] + doc["advanced"] + doc["wifi"], setting)
    ensures doc.Keys == {"general", "wifi"} ==>
      SettingValue(Some(doc), setting) == FirstValue(doc["general"] + doc["wifi"], setting)
  {
    var g, a, w := Category(doc, "general"), Category(doc, "advanced"), Category(doc, "wifi");
    if doc.Keys == {"general", "advanced", "wifi"} {
      assert |doc| == |doc.Keys| == 3;
      assert CategoryName(doc, 1) == "advanced" && CategoryName(doc, 2) == "wifi";
      FindFromConcat(g + a, w, setting, 0);
      FindFromConcat(g, a, setting, 0);
      assert ScanFrom(doc, setting, 3) == None;
      assert ScanFrom(doc, setting, 2) == FindFrom(w, setting, 0);
      assert ScanFrom(doc, setting, 1) == FindFrom(a + w, setting, 0) by {
        FindFromConcat(a, w, setting, 0);
      }
      FindFromConcat(g, a + w, setting, 0);
      assert g + a + w == g + (a + w);
    }
    if doc.Keys == {"general", "wifi"} {
      assert |doc| == |doc.Keys| == 2;
      assert "advanced" !in doc && CategoryName(doc, 1) == "wifi";
      FindFromConcat(g, w, setting, 0);
      assert ScanFrom(doc, setting, 2) == None;
      assert ScanFrom(doc, setting, 1) == FindFrom(w, setting, 0);
    }
  }
}
