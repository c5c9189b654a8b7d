/**
 * The text the bot sends: one line per template whose attribute is truthy, with every
 * `<attribute>` placeholder replaced by the attribute's `str()`, under a header naming the
 * city and closed by a separator line.
 */
module WeatherFormatting {
  import opened Outcomes
  import opened ProviderStrategy
  import opened Sequences
  import Strings

  /** One entry of the body template dictionary: the attribute that selects it, and its line. */
  datatype Template = Template(key: string, line: string)

  /** The body templates in dictionary order. */
  const Templates: seq<Template> := [
    Template("date", "<b>Погода на:</b> \t<date>\n=================================="),
    Template("weather_emoji", "<b>Погода</b>:\t<weather_emoji>\t<weather_summary>"),
    Template("max_temperature", "<b>Максимальна температура повітря</b>:\t<max_temperature> С°"),
    Template("min_temperature", "<b>Мінімальна температура повітря</b>:\t<min_temperature> С°"),
    Template("wind_speed", "<b>Швидкість вітру</b>:\t<wind_speed> м/с\t<wind_direction>"),
    Template("pressure", "<b>Атмосферний тиск</b>:\t<pressure> мм рт.ст."),
    Template("precipitation", "<b>Опади</b>:\t<precipitation> мм"),
    Template("humidity", "<b>Відносна вологість </b>:\t<humidity> %"),
    Template("sunrise", "<b>Схід сонця</b>: <sunrise>"),
    Template("sunset", "<b>Захід сонця</b>: <sunset>")]

  /** Where each template's key sits among the attributes. */
  const TemplateAttribute: seq<nat> := [3, 4, 7, 8, 9, 11, 12, 13, 14, 15]

  /** The line closing a record: 34 `=` signs. */
  const Separator: string := "=================================="

  const HeaderTemplate: string := "<b>** <city_name> **</b>\n"

  function TemplateLines(ts: seq<Template>): (lines: seq<string>)
    ensures |lines| == |ts| && forall k :: 0 <= k < |ts| ==> lines[k] == ts[k].line
  {
    seq(|ts|, k requires 0 <= k < |ts| => ts[k].line)
  }

  // ---------------------------------------------------------------------------------------
  // Line selection

  /** `getattr` over `__dict__` items: the value of the first item with the name. */
  function LookupAttribute(items: seq<(string, Field)>, name: string): (r: Option<Field>)
    ensures r.None? <==> forall k :: 0 <= k < |items| ==> items[k].0 != name
    ensures r.Some? ==> exists k :: 0 <= k < |items| && items[k] == (name, r.value)
  {
    if |items| == 0 then None
    else if items[0].0 == name then Some(items[0].1)
    else
      var r := LookupAttribute(items[1..], name);
      assert forall k :: 1 <= k < |items| ==> items[k] == items[1..][k - 1];
      r
  }

  function GetAttribute(w: WeatherData, name: string): Option<Field>
  {
    LookupAttribute(Attributes(w), name)
  }

  /** A template's line is kept when the attribute it names is truthy among the record's `items`. */
  predicate LineSelected(items: seq<(string, Field)>, t: Template)
  {
    var f := LookupAttribute(items, t.key);
    f.Some? && Truthy(f.value)
  }

  /** The comprehension of `__build_weather_string_list` over the templates `ts`. */
  function SelectLines(ts: seq<Template>, items: seq<(string, Field)>): seq<string>
    decreases |ts|
  {
    if |ts| == 0 then []
    else
      var kept := SelectLines(ts[..|ts| - 1], items);
      if LineSelected(items, ts[|ts| - 1]) then kept + [ts[|ts| - 1].line] else kept
  }

  /** The kept lines are the template lines with some left out, in template order. */
  lemma {:induction false} SelectLinesOrder(ts: seq<Template>, items: seq<(string, Field)>)
    ensures IsSubsequence(SelectLines(ts, items), TemplateLines(ts))
    decreases |ts|
  {
    if |ts| > 0 {
      var init := ts[..|ts| - 1];
      var last := ts[|ts| - 1];
      var kept := SelectLines(init, items);
      SelectLinesOrder(init, items);
      assert TemplateLines(ts)[..|ts| - 1] == TemplateLines(init);
      if LineSelected(items, last) {
        assert (kept + [last.line])[..|kept|] == kept;
      } else {
        SubsequenceOfPrefix(kept, TemplateLines(ts));
      }
    }
  }

  /** A line is kept exactly when some template with that line is selected. */
  lemma {:induction false} SelectLinesMembers(ts: seq<Template>, items: seq<(string, Field)>)
    ensures forall l :: l in SelectLines(ts, items) <==>
      exists k :: 0 <= k < |ts| && ts[k].line == l && LineSelected(items, ts[k])
    decreases |ts|
  {
    if |ts| > 0 {
      var init := ts[..|ts| - 1];
      SelectLinesMembers(init, items);
      forall l
        ensures l in SelectLines(ts, items) <==>
          exists k :: 0 <= k < |ts| && ts[k].line == l && LineSelected(items, ts[k])
      {
        if exists k :: 0 <= k < |ts| && ts[k].line == l && LineSelected(items, ts[k]) {
          var k :| 0 <= k < |ts| && ts[k].line == l && LineSelected(items, ts[k]);
          if k < |init| {
            assert init[k] == ts[k];
          }
        }
        if l in SelectLines(init, items) {
          var k :| 0 <= k < |init| && init[k].line == l && LineSelected(items, init[k]);
          assert ts[k] == init[k];
        }
      }
    }
  }

  /** `__build_weather_string_list`. */
  function BuildWeatherStringList(w: WeatherData): seq<string>
  {
    SelectLines(Templates, Attributes(w))
  }

  // ---------------------------------------------------------------------------------------
  // Placeholder substitution

  function Placeholder(key: string): string
  {
    "<" + key + ">"
  }

  /**
   * One pass of the substitution loop: when the attribute name occurs in the body, replace its
   * placeholder by the attribute's text; `<date>` is first replaced by `now` when one is given.
   */
  function SubstituteStep(body: string, item: (string, Field), now: Option<string>): string
  {
    if !Strings.Contains(body, item.0) then body
    else
      var dated := if item.0 == "date" && now.Some? then Strings.Replace(body, "<date>", now.value) else body;
      Strings.Replace(dated, Placeholder(item.0), Show(item.1))
  }

  /** The substitution loop over `items`, in order. */
  function SubstituteAll(body: string, items: seq<(string, Field)>, now: Option<string>): string
    decreases |items|
  {
    if |items| == 0 then body
    else SubstituteStep(SubstituteAll(body, items[..|items| - 1], now), items[|items| - 1], now)
  }

  /** The body of one record: selected lines joined by newlines, placeholders filled. */
  function FilledBody(w: WeatherData, now: Option<string>): string
  {
    SubstituteAll(Strings.Join(BuildWeatherStringList(w), "\n"), Attributes(w), now)
  }

  /** The header naming the city of a record. */
  function Header(w: WeatherData): string
  {
    Strings.Replace(HeaderTemplate, "<city_name>", Show(w.cityName))
  }

  /** The single-record branch of `__compile_weather_string`; `now` is the current time, shown for the current weather. */
  function SingleOutput(w: WeatherData, period: ForecastType, now: string): string
  {
    Strings.Join([Header(w), FilledBody(w, if period == Current then Some(now) else None)], "\n") + "\n" + Separator
  }

  /** One record's block in a list: its filled body, the separator and a blank line. */
  function Block(w: WeatherData): string
  {
    FilledBody(w, None) + "\n" + Separator + "\n\n"
  }

  /** `__build_string_body_from_list` as a value: the blocks, in order. */
  function ListBody(ws: seq<WeatherData>): string
    decreases |ws|
  {
    if |ws| == 0 then "" else ListBody(ws[..|ws| - 1]) + Block(ws[|ws| - 1])
  }

  /** The list branch of `__compile_weather_string`; `None` where indexing an empty list raises. */
  function ListOutput(ws: seq<WeatherData>): Option<string>
  {
    if |ws| == 0 then None else Some(Strings.Join([Header(ws[0]), ListBody(ws)], "\n"))
  }

  /** `__compile_weather_string`, dispatching on the kind of provider result. */
  function CompiledOutput(data: ProviderResult, period: ForecastType, now: string): Option<string>
  {
    match data
    case Single(w) => Some(SingleOutput(w, period, now))
    case Many(ws) => ListOutput(ws)
  }

  // ---------------------------------------------------------------------------------------
  // The loops

  /** The `for key, value in __dict__.items()` loop, rewriting the body one attribute at a time. */
  method FillPlaceholders(body: string, items: seq<(string, Field)>, now: Option<string>) returns (filled: string)
    ensures filled == SubstituteAll(body, items, now)
  {
    filled := body;
    for i := 0 to |items|
      invariant filled == SubstituteAll(body, items[..i], now)
    {
      ghost var before := filled;
      var (key, value) := items[i];
      if Strings.Contains(filled, key) {
        if key == "date" && now.Some? {
          filled := Strings.Replace(filled, "<date>", now.value);
        }
        filled := Strings.Replace(filled, Placeholder(key), Show(value));
      }
      assert filled == SubstituteStep(before, items[i], now);
      SubstituteAllSnoc(body, items, i, now);
    }
    assert items[..|items|] == items;
  }

  /** One more item is one more substitution step. */
  lemma SubstituteAllSnoc(body: string, items: seq<(string, Field)>, i: nat, now: Option<string>)
    requires i < |items|
    ensures SubstituteAll(body, items[..i + 1], now) == SubstituteStep(SubstituteAll(body, items[..i], now), items[i], now)
  {
    assert items[..i + 1][..i] == items[..i];
  }

  /** `__build_string_body_from_list`: one block per record, accumulated with `+=`. */
  method BuildStringBodyFromList(ws: seq<WeatherData>) returns (body: string)
    ensures body == ListBody(ws)
  {
    body := "";
    for i := 0 to |ws|
      invariant body == ListBody(ws[..i])
    {
      var lines := BuildWeatherStringList(ws[i]);
      var filled := FillPlaceholders(Strings.Join(lines, "\n"), Attributes(ws[i]), None);
      var block := filled + "\n" + Separator + "\n\n";
      ListBodySnoc(ws, i);
      body := body + block;
    }
    assert ws[..|ws|] == ws;
  }

  /** One more record is one more block. */
  lemma ListBodySnoc(ws: seq<WeatherData>, i: nat)
    requires i < |ws|
    ensures ListBody(ws[..i + 1]) == ListBody(ws[..i]) + Block(ws[i])
  {
    assert ws[..i + 1][..i] == ws[..i];
  }

  /** `__compile_weather_string`. */
  method CompileWeatherString(data: ProviderResult, period: ForecastType, now: string) returns (text: Option<string>)
    ensures text == CompiledOutput(data, period, now)
  {
    match data
    case Single(w) =>
      var header := Strings.Replace(HeaderTemplate, "<city_name>", Show(w.cityName));
      var lines := BuildWeatherStringList(w);
      var body := FillPlaceholders(Strings.Join(lines, "\n"), Attributes(w), if period == Current then Some(now) else None);
      text := Some(Strings.Join([header, body], "\n") + "\n" + Separator);
    case Many(ws) =>
      if |ws| == 0 {
        return None;
      }
      var header := Strings.Replace(HeaderTemplate, "<city_name>", Show(ws[0].cityName));
      var body := BuildStringBodyFromList(ws);
      text := Some(Strings.Join([header, body], "\n"));
  }

  // ---------------------------------------------------------------------------------------
  // Properties

  lemma AttributeNamesDistinct()
    ensures forall i, j :: 0 <= i < j < |AttributeNames| ==> AttributeNames[i] != AttributeNames[j]
  {
  }

  /** `getattr` by name finds each attribute's own value. */
  lemma AttributeLookup(w: WeatherData, k: nat)
    requires k < |AttributeNames|
    ensures GetAttribute(w, AttributeNames[k]) == Some(AttributeValues(w)[k])
  {
    AttributeNamesDistinct();
    var items := Attributes(w);
    var r := GetAttribute(w, AttributeNames[k]);
    assert items[k].0 == AttributeNames[k];
    var j :| 0 <= j < |items| && items[j] == (AttributeNames[k], r.value);
    assert j == k;
  }

  /** Every template key is an attribute, at the index `TemplateAttribute` records. */
  lemma TemplateKeysAreAttributes()
    ensures |TemplateAttribute| == |Templates|
    ensures forall k :: 0 <= k < |Templates| ==>
      TemplateAttribute[k] < |AttributeNames| && Templates[k].key == AttributeNames[TemplateAttribute[k]]
  {
  }

  lemma TemplateLinesDistinct()
    ensures forall i, j :: 0 <= i < j < |Templates| ==> Templates[i].line != Templates[j].line
  {
  }

  /** With distinct lines, a template's line is kept exactly when the template is selected. */
  lemma SelectedLineIff(ts: seq<Template>, items: seq<(string, Field)>, k: nat)
    requires k < |ts|
    requires forall i, j :: 0 <= i < j < |ts| ==> ts[i].line != ts[j].line
    ensures ts[k].line in SelectLines(ts, items) <==> LineSelected(items, ts[k])
  {
    SelectLinesMembers(ts, items);
    if ts[k].line in SelectLines(ts, items) {
      var j :| 0 <= j < |ts| && ts[j].line == ts[k].line && LineSelected(items, ts[j]);
      assert j == k;
    }
  }

  /** A template is selected exactly when its attribute is truthy. */
  lemma TemplateSelectedIff(w: WeatherData, k: nat)
    requires k < |Templates|
    ensures TemplateAttribute[k] < |AttributeNames|
    ensures LineSelected(Attributes(w), Templates[k]) <==> Truthy(AttributeValues(w)[TemplateAttribute[k]])
  {
    TemplateKeysAreAttributes();
    AttributeLookup(w, TemplateAttribute[k]);
  }

  /**
   * The body lines are exactly the templates whose attribute is truthy (so `None`, `0` and
   * `""` drop their line), in template order.
   */
  lemma BodyLinesMeaning(w: WeatherData)
    ensures IsSubsequence(BuildWeatherStringList(w), TemplateLines(Templates))
    ensures forall k :: 0 <= k < |Templates| ==>
      TemplateAttribute[k] < |AttributeNames| &&
      (Templates[k].line in BuildWeatherStringList(w) <==> Truthy(AttributeValues(w)[TemplateAttribute[k]]))
  {
    SelectLinesOrder(Templates, Attributes(w));
    TemplateLinesDistinct();
    forall k | 0 <= k < |Templates|
      ensures TemplateAttribute[k] < |AttributeNames|
      ensures Templates[k].line in BuildWeatherStringList(w) <==> Truthy(AttributeValues(w)[TemplateAttribute[k]])
    {
      SelectedLineIff(Templates, Attributes(w), k);
      TemplateSelectedIff(w, k);
    }
  }

  /** A zero maximum temperature and a missing precipitation leave out their lines. */
  lemma FalsyFieldsDropped(w: WeatherData)
    requires w.maxTemperature == Whole(0) && w.precipitation == NoneField
    ensures Templates[2].line !in BuildWeatherStringList(w)
    ensures Templates[6].line !in BuildWeatherStringList(w)
  {
    BodyLinesMeaning(w);
  }

  /** The header is the city's text between the bold markers, whatever that text holds. */
  lemma HeaderShape(w: WeatherData)
    ensures Header(w) == "<b>** " + Show(w.cityName) + " **</b>\n"
  {
    var pat := "<city_name>";
    var a := "<b>** ";
    var b := " **</b>\n";
    assert HeaderTemplate == a + pat + b;
    Strings.ReplaceSingleOccurrence(a, pat, Show(w.cityName), b, 1, 'c');
  }

  /** A single record: header, blank line, filled body, separator. */
  lemma SingleOutputShape(w: WeatherData, period: ForecastType, now: string)
    ensures SingleOutput(w, period, now) ==
      "<b>** " + Show(w.cityName) + " **</b>\n" + "\n" + FilledBody(w, if period == Current then Some(now) else None)
      + "\n" + Separator
  {
    HeaderShape(w);
    Strings.JoinPair(Header(w), FilledBody(w, if period == Current then Some(now) else None), "\n");
  }

  /** The list body of a concatenation is the concatenation of the list bodies. */
  lemma {:induction false} ListBodyAppend(a: seq<WeatherData>, b: seq<WeatherData>)
    ensures ListBody(a + b) == ListBody(a) + ListBody(b)
    decreases |b|
  {
    if |b| == 0 {
      assert a + b == a;
    } else {
      var b' := b[..|b| - 1];
      var last := b[|b| - 1];
      ListBodyAppend(a, b');
      AppendInit(a, b);
      var x, y, z := ListBody(a), ListBody(b'), Block(last);
      assert ListBody(a + b) == ListBody(a + b') + z;
      AppendAssociative(x, y, z);
    }
  }

  /** A list: the first record's header, a blank line, then one block per record. */
  lemma ListOutputShape(ws: seq<WeatherData>)
    ensures ws == [] <==> ListOutput(ws).None?
    ensures |ws| > 0 ==> ListOutput(ws) == Some("<b>** " + Show(ws[0].cityName) + " **</b>\n" + "\n" + ListBody(ws))
    ensures |ws| > 0 ==> ListBody(ws) == ListBody([ws[0]]) + ListBody(ws[1..])
  {
    if |ws| > 0 {
      HeaderShape(ws[0]);
      Strings.JoinPair(Header(ws[0]), ListBody(ws), "\n");
      ListBodyAppend([ws[0]], ws[1..]);
      HeadTail(ws);
    }
  }

  /** Each record's block is its filled body closed by the separator and a blank line. */
  lemma ListBodySingle(w: WeatherData)
    ensures ListBody([w]) == FilledBody(w, None) + "\n" + Separator + "\n\n"
  {
    assert [w][..0] == [];
  }

  /** A one-day list reads like the record formatted alone as a forecast, plus a blank line. */
  lemma SingleAndList(w: WeatherData, now: string)
    ensures ListOutput([w]) == Some(SingleOutput(w, FiveDays, now) + "\n\n")
  {
    ListOutputShape([w]);
    ListBodySingle(w);
    SingleOutputShape(w, FiveDays, now);
    var p := "<b>** " + Show(w.cityName) + " **</b>\n" + "\n";
    AppendRegroup(p, FilledBody(w, None), "\n", Separator, "\n\n");
  }

  /**
   * The `key in body` guard changes nothing: a body without the attribute name has none of
   * its placeholders, so the replacements would be no-ops.
   */
  lemma SubstituteGuardIrrelevant(body: string, item: (string, Field), now: Option<string>)
    ensures SubstituteStep(body, item, now) ==
      var dated := if item.0 == "date" && now.Some? then Strings.Replace(body, "<date>", now.value) else body;
      Strings.Replace(dated, Placeholder(item.0), Show(item.1))
  {
    if !Strings.Contains(body, item.0) {
      assert !Strings.Contains(body, Placeholder(item.0)) by {
        if Strings.Contains(body, Placeholder(item.0)) {
          Strings.ContainsMiddle(body, "<", item.0, ">");
        }
      }
      Strings.ReplaceAbsent(body, Placeholder(item.0), Show(item.1));
      if item.0 == "date" && now.Some? {
        assert Placeholder(item.0) == "<date>";
        Strings.ReplaceAbsent(body, "<date>", now.value);
      }
    }
  }

  // ---------------------------------------------------------------------------------------
  // What the substitution loop yields

  /**
   * The shape of an attribute name that the proofs below rely on: non-empty, no angle
   * brackets or line breaks, and not starting like the `b>` of `<b>` or the `/b>` of `</b>`.
   */
  predicate NameShape(name: string)
  {
    |name| > 0 && name[0] != 'b' && name[0] != '/' && '<' !in name && '>' !in name && '\n' !in name
  }

  lemma AttributeNameShapes()
    ensures forall k :: 0 <= k < |AttributeNames| ==> NameShape(AttributeNames[k])
  {
    NameShapes0();
    NameShapes4();
    NameShapes8();
    NameShapes12();
  }

  lemma NameShapes0()
    ensures forall k :: 0 <= k < 4 ==> NameShape(AttributeNames[k])
  {
    assert NameShape(AttributeNames[0]);
    assert NameShape(AttributeNames[1]);
    assert NameShape(AttributeNames[2]);
    assert NameShape(AttributeNames[3]);
  }

  lemma NameShapes4()
    ensures forall k :: 4 <= k < 8 ==> NameShape(AttributeNames[k])
  {
    assert NameShape(AttributeNames[4]);
    assert NameShape(AttributeNames[5]);
    assert NameShape(AttributeNames[6]);
    assert NameShape(AttributeNames[7]);
  }

  lemma NameShapes8()
    ensures forall k :: 8 <= k < 12 ==> NameShape(AttributeNames[k])
  {
    assert NameShape(AttributeNames[8]);
    assert NameShape(AttributeNames[9]);
    assert NameShape(AttributeNames[10]);
    assert NameShape(AttributeNames[11]);
  }

  lemma NameShapes12()
    ensures forall k :: 12 <= k < 16 ==> NameShape(AttributeNames[k])
  {
    assert NameShape(AttributeNames[12]);
    assert NameShape(AttributeNames[13]);
    assert NameShape(AttributeNames[14]);
    assert NameShape(AttributeNames[15]);
  }

  /** A template line: a bold caption, then the rest of the line. */
  function Tagged(caption: string, rest: string): string
  {
    "<b>" + (caption + ("</b>" + rest))
  }

  /** What a step writes where the placeholder stood: `now` for `<date>` when given, else the value's `str()`. */
  function FillText(item: (string, Field), now: Option<string>): string
  {
    if item.0 == "date" && now.Some? then now.value else Show(item.1)
  }

  /** A placeholder never starts at the bold markers, so replacing it goes past the caption. */
  lemma TaggedReplace(caption: string, rest: string, name: string, rep: string)
    requires '<' !in caption && NameShape(name)
    ensures Strings.Replace(Tagged(caption, rest), Placeholder(name), rep)
      == Tagged(caption, Strings.Replace(rest, Placeholder(name), rep))
  {
    var pat := Placeholder(name);
    assert pat[0] == '<' && pat[1] == name[0];
    var closing := "</b>" + rest;
    Strings.StartsWithSlice(closing, pat);
    assert |pat| <= |closing| ==> closing[..|pat|][1] == '/';
    Strings.ReplaceLeadPrefix("</b>", rest, pat, rep);
    Strings.ReplaceFreePrefix(caption, closing, pat, rep);
    var whole := "<b>" + (caption + closing);
    Strings.StartsWithSlice(whole, pat);
    assert |pat| <= |whole| ==> whole[..|pat|][1] == 'b';
    Strings.ReplaceLeadPrefix("<b>", caption + closing, pat, rep);
  }

  /** Text without `<` holds no placeholder. */
  lemma FreeKept(x: string, name: string, rep: string)
    requires '<' !in x && NameShape(name)
    ensures Strings.Replace(x, Placeholder(name), rep) == x
  {
    assert Placeholder(name)[0] == '<';
    Strings.ReplaceFreePrefix(x, "", Placeholder(name), rep);
    assert x + "" == x;
  }

  /** One placeholder does not start another: replacing `<name>` goes past `<key>`. */
  lemma PlaceholderLead(key: string, suffix: string, name: string, rep: string)
    requires NameShape(key) && NameShape(name) && key != name
    ensures Strings.Replace(Placeholder(key) + suffix, Placeholder(name), rep)
      == Placeholder(key) + Strings.Replace(suffix, Placeholder(name), rep)
  {
    var s := Placeholder(key) + suffix;
    var pat := Placeholder(name);
    Strings.StartsWithSlice(s, pat);
    assert |pat| <= |s| && |name| < |key| ==> s[..|pat|][|name| + 1] == key[|name|];
    assert |pat| <= |s| && |key| < |name| ==> s[..|pat|][|key| + 1] == '>';
    assert |pat| <= |s| && |key| == |name| ==> s[..|pat|][1..|name| + 1] == key;
    assert pat[1..|name| + 1] == name;
    assert Placeholder(key)[1..] == key + ">";
    Strings.ReplaceLeadPrefix(Placeholder(key), suffix, pat, rep);
  }

  /** A line that starts with `<key>` gets the replacement there and nothing else after it. */
  lemma PlaceholderAtStart(key: string, suffix: string, rep: string)
    requires NameShape(key) && '<' !in suffix
    ensures Strings.Replace(Placeholder(key) + suffix, Placeholder(key), rep) == rep + suffix
  {
    var s := Placeholder(key) + suffix;
    var pat := Placeholder(key);
    Strings.StartsWithSlice(s, pat);
    assert s[..|pat|] == pat && s[0..] == s;
    Strings.ReplaceAtStart(s, pat, rep);
    assert s[|pat|..] == suffix && s[..0] == "";
    FreeKept(suffix, key, rep);
  }

  /** A template line holding `<key>`, or no placeholder at all, is left alone by `<name>`. */
  lemma LineKept(caption: string, mid: string, core: string, suffix: string, key: string, name: string, rep: string)
    requires '<' !in caption && '<' !in mid && '<' !in suffix && NameShape(name)
    requires '<' !in core || (core == Placeholder(key) && NameShape(key) && key != name)
    ensures Strings.Replace(Tagged(caption, mid + (core + suffix)), Placeholder(name), rep)
      == Tagged(caption, mid + (core + suffix))
  {
    var pat := Placeholder(name);
    assert pat[0] == '<';
    TaggedReplace(caption, mid + (core + suffix), name, rep);
    Strings.ReplaceFreePrefix(mid, core + suffix, pat, rep);
    if '<' !in core {
      Strings.ReplaceFreePrefix(core, suffix, pat, rep);
    } else {
      PlaceholderLead(key, suffix, name, rep);
    }
    FreeKept(suffix, name, rep);
  }

  /** Replacing a line's own placeholder puts the replacement in its place. */
  lemma LineFilled(caption: string, mid: string, suffix: string, key: string, rep: string)
    requires '<' !in caption && '<' !in mid && '<' !in suffix && NameShape(key)
    ensures Strings.Replace(Tagged(caption, mid + (Placeholder(key) + suffix)), Placeholder(key), rep)
      == Tagged(caption, mid + (rep + suffix))
  {
    var pat := Placeholder(key);
    assert pat[0] == '<';
    TaggedReplace(caption, mid + (pat + suffix), key, rep);
    Strings.ReplaceFreePrefix(mid, pat + suffix, pat, rep);
    PlaceholderAtStart(key, suffix, rep);
  }

  /** A step for another attribute leaves a template line as it is. */
  lemma StepKeepsLine(caption: string, mid: string, core: string, suffix: string, key: string,
                      item: (string, Field), now: Option<string>)
    requires '<' !in caption && '<' !in mid && '<' !in suffix && NameShape(item.0)
    requires '<' !in core || (core == Placeholder(key) && NameShape(key) && key != item.0)
    ensures SubstituteStep(Tagged(caption, mid + (core + suffix)), item, now) == Tagged(caption, mid + (core + suffix))
  {
    var line := Tagged(caption, mid + (core + suffix));
    SubstituteGuardIrrelevant(line, item, now);
    if item.0 == "date" && now.Some? {
      assert Placeholder("date") == "<date>";
      LineKept(caption, mid, core, suffix, key, "date", now.value);
    }
    LineKept(caption, mid, core, suffix, key, item.0, Show(item.1));
  }

  /** The step for a line's own attribute writes its text in place of the placeholder. */
  lemma StepFillsLine(caption: string, mid: string, suffix: string, item: (string, Field), now: Option<string>)
    requires '<' !in caption && '<' !in mid && '<' !in suffix && NameShape(item.0)
    requires '<' !in FillText(item, now)
    ensures SubstituteStep(Tagged(caption, mid + (Placeholder(item.0) + suffix)), item, now)
      == Tagged(caption, mid + (FillText(item, now) + suffix))
  {
    var line := Tagged(caption, mid + (Placeholder(item.0) + suffix));
    SubstituteGuardIrrelevant(line, item, now);
    if item.0 == "date" && now.Some? {
      assert Placeholder("date") == "<date>";
      LineFilled(caption, mid, suffix, "date", now.value);
      LineKept(caption, mid, now.value, suffix, "date", "date", Show(item.1));
    } else {
      LineFilled(caption, mid, suffix, item.0, Show(item.1));
    }
  }

  /** The first `n` steps over a record's attributes leave a one-placeholder line until its own step fills it. */
  lemma {:induction false} LineFilledUpTo(w: WeatherData, now: Option<string>, caption: string, mid: string,
                                          j: nat, suffix: string, n: nat)
    requires j < |AttributeNames| && n <= |AttributeNames|
    requires '<' !in caption && '<' !in mid && '<' !in suffix
    requires '<' !in FillText(Attributes(w)[j], now)
    ensures SubstituteAll(Tagged(caption, mid + (Placeholder(AttributeNames[j]) + suffix)), Attributes(w)[..n], now)
      == if n <= j then Tagged(caption, mid + (Placeholder(AttributeNames[j]) + suffix))
         else Tagged(caption, mid + (FillText(Attributes(w)[j], now) + suffix))
    decreases n
  {
    var items := Attributes(w);
    var line := Tagged(caption, mid + (Placeholder(AttributeNames[j]) + suffix));
    if n == 0 {
      assert items[..0] == [];
    } else {
      LineFilledUpTo(w, now, caption, mid, j, suffix, n - 1);
      SubstituteAllSnoc(line, items, n - 1, now);
      AttributeNameShapes();
      AttributeNamesDistinct();
      var item := items[n - 1];
      assert item.0 == AttributeNames[n - 1];
      if n - 1 < j {
        StepKeepsLine(caption, mid, Placeholder(AttributeNames[j]), suffix, AttributeNames[j], item, now);
      } else if n - 1 == j {
        StepFillsLine(caption, mid, suffix, item, now);
      } else {
        StepKeepsLine(caption, mid, FillText(items[j], now), suffix, AttributeNames[j], item, now);
      }
    }
  }

  /**
   * A line holding one placeholder, besides its bold caption, comes out of the entire loop with
   * the attribute's text (or `now` for `<date>`) in place of the placeholder and the rest as it was.
   */
  lemma TemplateLineFilled(w: WeatherData, now: Option<string>, caption: string, mid: string, j: nat, suffix: string)
    requires j < |AttributeNames|
    requires '<' !in caption && '<' !in mid && '<' !in suffix
    requires '<' !in FillText(Attributes(w)[j], now)
    ensures SubstituteAll(Tagged(caption, mid + (Placeholder(AttributeNames[j]) + suffix)), Attributes(w), now)
      == Tagged(caption, mid + (FillText(Attributes(w)[j], now) + suffix))
  {
    LineFilledUpTo(w, now, caption, mid, j, suffix, |AttributeNames|);
    assert Attributes(w)[..|AttributeNames|] == Attributes(w);
  }

  /** No placeholder is found in an empty body. */
  lemma {:induction false} SubstituteAllEmpty(items: seq<(string, Field)>, now: Option<string>)
    requires forall k :: 0 <= k < |items| ==> NameShape(items[k].0)
    ensures SubstituteAll("", items, now) == ""
    decreases |items|
  {
    if |items| > 0 {
      SubstituteAllEmpty(items[..|items| - 1], now);
      assert !Strings.Contains("", items[|items| - 1].0);
    }
  }

  /** A step rewrites two lines joined by a line break each on its own. */
  lemma SubstituteStepAcross(x: string, y: string, item: (string, Field), now: Option<string>)
    requires NameShape(item.0)
    ensures SubstituteStep(x + "\n" + y, item, now) == SubstituteStep(x, item, now) + "\n" + SubstituteStep(y, item, now)
  {
    SubstituteGuardIrrelevant(x + "\n" + y, item, now);
    SubstituteGuardIrrelevant(x, item, now);
    SubstituteGuardIrrelevant(y, item, now);
    var pat := Placeholder(item.0);
    assert '\n' !in pat;
    if item.0 == "date" && now.Some? {
      Strings.ReplaceAcrossNewline(x, y, "<date>", now.value);
      Strings.ReplaceAcrossNewline(Strings.Replace(x, "<date>", now.value), Strings.Replace(y, "<date>", now.value),
        pat, Show(item.1));
    } else {
      Strings.ReplaceAcrossNewline(x, y, pat, Show(item.1));
    }
  }

  lemma {:induction false} SubstituteAllAcross(x: string, y: string, items: seq<(string, Field)>, now: Option<string>)
    requires forall k :: 0 <= k < |items| ==> NameShape(items[k].0)
    ensures SubstituteAll(x + "\n" + y, items, now) == SubstituteAll(x, items, now) + "\n" + SubstituteAll(y, items, now)
    decreases |items|
  {
    if |items| > 0 {
      var init := items[..|items| - 1];
      SubstituteAllAcross(x, y, init, now);
      SubstituteStepAcross(SubstituteAll(x, init, now), SubstituteAll(y, init, now), items[|items| - 1], now);
    }
  }

  /** Each line run through the substitution loop on its own. */
  function FillLines(lines: seq<string>, items: seq<(string, Field)>, now: Option<string>): seq<string>
  {
    seq(|lines|, i requires 0 <= i < |lines| => SubstituteAll(lines[i], items, now))
  }

  /** Substituting in the joined lines is joining the lines substituted one by one. */
  lemma {:induction false} SubstituteAllJoin(lines: seq<string>, items: seq<(string, Field)>, now: Option<string>)
    requires forall k :: 0 <= k < |items| ==> NameShape(items[k].0)
    ensures SubstituteAll(Strings.Join(lines, "\n"), items, now) == Strings.Join(FillLines(lines, items, now), "\n")
    decreases |lines|
  {
    if |lines| == 0 {
      SubstituteAllEmpty(items, now);
    } else if |lines| > 1 {
      SubstituteAllJoin(lines[1..], items, now);
      SubstituteAllAcross(lines[0], Strings.Join(lines[1..], "\n"), items, now);
      assert FillLines(lines[1..], items, now) == FillLines(lines, items, now)[1..];
    }
  }

  /** A record's body is its selected lines, each filled on its own, joined by line breaks. */
  lemma FilledBodyLines(w: WeatherData, now: Option<string>)
    ensures FilledBody(w, now) == Strings.Join(FillLines(BuildWeatherStringList(w), Attributes(w), now), "\n")
  {
    AttributeNameShapes();
    SubstituteAllJoin(BuildWeatherStringList(w), Attributes(w), now);
  }

  /** When the first template is selected, its line comes first. */
  lemma {:induction false} SelectLinesFirst(ts: seq<Template>, items: seq<(string, Field)>)
    requires |ts| > 0 && LineSelected(items, ts[0])
    ensures |SelectLines(ts, items)| > 0 && SelectLines(ts, items)[0] == ts[0].line
    decreases |ts|
  {
    if |ts| > 1 {
      SelectLinesFirst(ts[..|ts| - 1], items);
    }
  }

  /** Six pieces concatenated left to right are the pieces nested to the right. */
  lemma Regroup(a: string, b: string, c: string, d: string, e: string, f: string)
    ensures a + b + c + d + e + f == a + (b + (c + (d + (e + f))))
  {
    AppendAssociative(a + b + c + d, e, f);
    AppendAssociative(a + b + c, d, e + f);
    AppendAssociative(a + b, c, d + (e + f));
    AppendAssociative(a, b, c + (d + (e + f)));
  }

  /** The date template cut at its bold caption and its placeholder. */
  lemma DateTemplateShape()
    ensures Templates[0].line == Tagged("Погода на:", " \t" + (Placeholder(AttributeNames[3]) + ("\n" + Separator)))
  {
    DateTemplatePieces();
    assert Placeholder(AttributeNames[3]) == "<date>";
    Regroup("<b>", "Погода на:", "</b>", " \t", "<date>", "\n" + Separator);
  }

  /** Splitting off from the right keeps each literal comparison short. */
  lemma DateTemplatePieces()
    ensures Templates[0].line == "<b>" + "Погода на:" + "</b>" + " \t" + "<date>" + ("\n" + Separator)
  {
    DateTemplateTail();
    assert "<b>Погода на:</b> \t<date>" == "<b>Погода на:</b> \t" + "<date>";
    DateOpening();
  }

  lemma DateTemplateTail()
    ensures Templates[0].line == "<b>Погода на:</b> \t<date>" + ("\n" + Separator)
  {
    var half := "=================";
    SeparatorHalves();
    assert Templates[0].line == "<b>Погода на:</b> \t<date>\n=================" + half;
    assert "<b>Погода на:</b> \t<date>\n=================" == "<b>Погода на:</b> \t<date>\n" + half;
    assert "<b>Погода на:</b> \t<date>\n" == "<b>Погода на:</b> \t<date>" + "\n";
    AppendAssociative("<b>Погода на:</b> \t<date>", "\n", half);
    AppendAssociative("<b>Погода на:</b> \t<date>", "\n" + half, half);
    AppendAssociative("\n", half, half);
  }

  lemma SeparatorHalves()
    ensures Separator == "=================" + "================="
  {
  }

  /** The pressure template cut at its bold caption and its placeholder. */
  lemma PressureTemplateShape()
    ensures Templates[5].line == Tagged("Атмосферний тиск", ":\t" + (Placeholder(AttributeNames[11]) + " мм рт.ст."))
  {
    PressureTemplatePieces();
    assert Placeholder(AttributeNames[11]) == "<pressure>";
    Regroup("<b>", "Атмосферний тиск", "</b>", ":\t", "<pressure>", " мм рт.ст.");
  }

  lemma PressureTemplatePieces()
    ensures Templates[5].line == "<b>" + "Атмосферний тиск" + "</b>" + ":\t" + "<pressure>" + " мм рт.ст."
  {
    assert Templates[5].line == "<b>Атмосферний тиск</b>:\t<pressure>" + " мм рт.ст.";
    assert "<b>Атмосферний тиск</b>:\t<pressure>" == "<b>Атмосферний тиск</b>:\t" + "<pressure>";
    PressureOpening();
  }

  /** A template line written out flat. */
  lemma TaggedFlat(caption: string, mid: string, core: string, suffix: string)
    ensures Tagged(caption, mid + (core + suffix)) == "<b>" + caption + "</b>" + mid + core + suffix
  {
  }

  /**
   * A record with a truthy `date` opens with the date line: the current time when one is
   * given (the current weather), else the record's own `date`, then the separator.
   */
  lemma FilledBodyDated(w: WeatherData, now: Option<string>)
    requires Truthy(w.date)
    requires '<' !in (if now.Some? then now.value else Show(w.date))
    ensures "<b>Погода на:</b> \t" + (if now.Some? then now.value else Show(w.date)) + "\n" + Separator <= FilledBody(w, now)
  {
    var x := if now.Some? then now.value else Show(w.date);
    var lines := BuildWeatherStringList(w);
    DateLineFirst(w);
    DateLineFilled(w, now);
    FilledBodyLines(w, now);
    assert FillLines(lines, Attributes(w), now)[0] == SubstituteAll(Templates[0].line, Attributes(w), now);
  }

  /**
   * The reply for one record names the city, then opens its body with the date line: the
   * current time for the current weather, the record's `date` for a forecast.
   */
  lemma SingleOutputDated(w: WeatherData, period: ForecastType, now: string)
    requires Truthy(w.date)
    requires '<' !in (if period == Current then now else Show(w.date))
    ensures "<b>** " + Show(w.cityName) + " **</b>\n" + "\n"
      + ("<b>Погода на:</b> \t" + (if period == Current then now else Show(w.date)) + "\n" + Separator)
      <= SingleOutput(w, period, now)
  {
    var given := if period == Current then Some(now) else None;
    SingleOutputShape(w, period, now);
    FilledBodyDated(w, given);
    var head := "<b>** " + Show(w.cityName) + " **</b>\n" + "\n";
    var dated := "<b>Погода на:</b> \t" + (if period == Current then now else Show(w.date)) + "\n" + Separator;
    PrefixInside(head, dated, FilledBody(w, given), "\n", Separator);
  }

  /** With a truthy `date`, the date template is the first body line. */
  lemma DateLineFirst(w: WeatherData)
    requires Truthy(w.date)
    ensures |BuildWeatherStringList(w)| > 0 && BuildWeatherStringList(w)[0] == Templates[0].line
  {
    TemplateSelectedIff(w, 0);
    SelectLinesFirst(Templates, Attributes(w));
  }

  /** The date template filled: the current time when given, else the record's `date`. */
  lemma DateLineFilled(w: WeatherData, now: Option<string>)
    requires '<' !in (if now.Some? then now.value else Show(w.date))
    ensures SubstituteAll(Templates[0].line, Attributes(w), now)
      == "<b>Погода на:</b> \t" + (if now.Some? then now.value else Show(w.date)) + "\n" + Separator
  {
    var x := if now.Some? then now.value else Show(w.date);
    var suffix := "\n" + Separator;
    DateTemplateShape();
    assert Attributes(w)[3] == ("date", w.date);
    TemplateLineFilled(w, now, "Погода на:", " \t", 3, suffix);
    TaggedFlat("Погода на:", " \t", x, suffix);
    DateOpening();
    AppendAssociative("<b>Погода на:</b> \t" + x, "\n", Separator);
  }

  lemma DateOpening()
    ensures "<b>Погода на:</b> \t" == "<b>" + "Погода на:" + "</b>" + " \t"
  {
    assert "<b>Погода на:</b> \t" == "<b>Погода на:</b>" + " \t";
    assert "<b>Погода на:</b>" == "<b>Погода на:" + "</b>";
    assert "<b>Погода на:" == "<b>" + "Погода на:";
  }

  lemma PressureOpening()
    ensures "<b>Атмосферний тиск</b>:\t" == "<b>" + "Атмосферний тиск" + "</b>" + ":\t"
  {
    assert "<b>Атмосферний тиск</b>:\t" == "<b>Атмосферний тиск</b>" + ":\t";
    assert "<b>Атмосферний тиск</b>" == "<b>Атмосферний тиск" + "</b>";
    assert "<b>Атмосферний тиск" == "<b>" + "Атмосферний тиск";
  }

  /**
   * A selected line holding one placeholder after its bold caption comes out with the
   * attribute's text in place of the placeholder, when that text holds no `<`.
   */
  lemma SelectedLineFilled(w: WeatherData, now: Option<string>, k: nat, j: nat, caption: string, mid: string, suffix: string)
    requires k < |Templates| && j < |AttributeNames| && Templates[k].key == AttributeNames[j]
    requires Templates[k].line == Tagged(caption, mid + (Placeholder(AttributeNames[j]) + suffix))
    requires '<' !in caption && '<' !in mid && '<' !in suffix
    requires Truthy(AttributeValues(w)[j]) && '<' !in FillText(Attributes(w)[j], now)
    ensures Tagged(caption, mid + (FillText(Attributes(w)[j], now) + suffix)) in FillLines(BuildWeatherStringList(w), Attributes(w), now)
  {
    var items := Attributes(w);
    var lines := BuildWeatherStringList(w);
    AttributeLookup(w, j);
    TemplateLinesDistinct();
    SelectedLineIff(Templates, items, k);
    var i :| 0 <= i < |lines| && lines[i] == Templates[k].line;
    TemplateLineFilled(w, now, caption, mid, j, suffix);
    assert FillLines(lines, items, now)[i] == Tagged(caption, mid + (FillText(items[j], now) + suffix));
  }

  /** The pressure line, for instance, reads the pressure followed by its unit. */
  lemma PressureLineFilled(w: WeatherData, now: Option<string>)
    requires Truthy(w.pressure) && '<' !in Show(w.pressure)
    ensures "<b>Атмосферний тиск</b>:\t" + Show(w.pressure) + " мм рт.ст."
      in FillLines(BuildWeatherStringList(w), Attributes(w), now)
  {
    var caption, mid, suffix := "Атмосферний тиск", ":\t", " мм рт.ст.";
    PressureTemplateShape();
    assert Attributes(w)[11] == ("pressure", w.pressure);
    SelectedLineFilled(w, now, 5, 11, caption, mid, suffix);
    TaggedFlat(caption, mid, Show(w.pressure), suffix);
    PressureOpening();
  }
}
