/**
 * log/print.go: PyFormat, which fills `{}` placeholders left to right,
 * and Print, which wraps its content in an ANSI colour escape when the
 * colour name is in the table. Values and content are taken as their
 * `%v` renderings; Print's output is the string it would write.
 */
module LogPrint {
  import opened Http

  // ---- PyFormat ----

  /** `{}` starts at index `i` of `s`. */
  predicate PlaceholderAt(s: string, i: int) {
    0 <= i && i + 1 < |s| && s[i] == '{' && s[i + 1] == '}'
  }

  predicate HasPlaceholder(s: string) {
    exists i :: 0 <= i < |s| && PlaceholderAt(s, i)
  }

  /** strings.Replace(s, "{}", v, 1): the leftmost `{}` becomes `v`. */
  function ReplaceFirst(s: string, v: string): string {
    if |s| < 2 then s
    else if s[0] == '{' && s[1] == '}' then v + s[2..]
    else [s[0]] + ReplaceFirst(s[1..], v)
  }

  /** The loop of PyFormat: one ReplaceFirst per value, in order. */
  function Format(template: string, values: seq<string>): string
    decreases |values|
  {
    if values == [] then template
    else Format(ReplaceFirst(template, values[0]), values[1..])
  }

  /** PyFormat. */
  method PyFormat(template: string, values: seq<string>) returns (r: string)
    ensures r == Format(template, values)
  {
    r := template;
    for i := 0 to |values|
      invariant Format(r, values[i..]) == Format(template, values)
    {
      assert values[i..][1..] == values[i + 1..];
      r := ReplaceFirst(r, values[i]);
    }
    assert values[|values|..] == [];
  }

  /** ReplaceFirst rewrites exactly the leftmost placeholder. */
  lemma {:induction false} ReplaceFirstAt(s: string, v: string, i: int)
    requires PlaceholderAt(s, i)
    requires forall j :: 0 <= j < i ==> !PlaceholderAt(s, j)
    ensures ReplaceFirst(s, v) == s[..i] + v + s[i + 2..]
    decreases i
  {
    if i > 0 {
      var t := s[1..];
      assert !PlaceholderAt(s, 0);
      assert ReplaceFirst(s, v) == [s[0]] + ReplaceFirst(t, v);
      forall j | 0 <= j < i - 1 ensures !PlaceholderAt(t, j) {
        assert t[j] == s[j + 1] && t[j + 1] == s[j + 2];
        assert !PlaceholderAt(s, j + 1);
      }
      assert PlaceholderAt(t, i - 1) by {
        assert t[i - 1] == s[i] && t[i] == s[i + 1];
      }
      ReplaceFirstAt(t, v, i - 1);
      assert t[..i - 1] == s[1..i] && t[i + 1..] == s[i + 2..];
      assert s[..i] == [s[0]] + s[1..i];
    }
  }

  /** With no placeholder left, ReplaceFirst is the identity. */
  lemma {:induction false} ReplaceFirstNone(s: string, v: string)
    requires !HasPlaceholder(s)
    ensures ReplaceFirst(s, v) == s
    decreases |s|
  {
    if |s| >= 2 {
      assert !PlaceholderAt(s, 0);
      forall j ensures !PlaceholderAt(s[1..], j) {
        if PlaceholderAt(s[1..], j) { assert PlaceholderAt(s, j + 1); }
      }
      ReplaceFirstNone(s[1..], v);
    }
  }

  /** A template without `{}` comes back unchanged, whatever the values. */
  lemma {:induction false} FormatNoPlaceholder(template: string, values: seq<string>)
    requires !HasPlaceholder(template)
    ensures Format(template, values) == template
    decreases |values|
  {
    if values != [] {
      ReplaceFirstNone(template, values[0]);
      FormatNoPlaceholder(template, values[1..]);
    }
  }

  /** With no values PyFormat returns the template. */
  lemma FormatNoValues(template: string)
    ensures Format(template, []) == template
  {
  }

  /**
   * A clean piece of text has no `{}` of its own and does not end in `{`,
   * so no placeholder can start inside it, whatever text follows.
   */
  predicate Clean(s: string) {
    !HasPlaceholder(s) && (|s| == 0 || s[|s| - 1] != '{')
  }

  lemma CleanTail(p: string)
    requires Clean(p) && p != []
    ensures Clean(p[1..])
  {
    forall j | 0 <= j < |p[1..]| ensures !PlaceholderAt(p[1..], j) {
      if PlaceholderAt(p[1..], j) { assert PlaceholderAt(p, j + 1); }
    }
  }

  /** Text without any `{` is clean. */
  lemma BraceFreeClean(p: string)
    requires '{' !in p
    ensures Clean(p)
  {
    forall j | 0 <= j < |p| ensures !PlaceholderAt(p, j) {
      assert p[j] != '{';
    }
  }

  /** Two clean pieces make a clean piece. */
  lemma {:induction false} CleanConcat(a: string, b: string)
    requires Clean(a) && Clean(b)
    ensures Clean(a + b)
  {
    var s := a + b;
    forall j | 0 <= j < |s| ensures !PlaceholderAt(s, j) {
      if PlaceholderAt(s, j) {
        if j + 1 < |a| {
          assert s[j] == a[j] && s[j + 1] == a[j + 1];
          assert PlaceholderAt(a, j);
        } else if j >= |a| {
          assert s[j] == b[j - |a|] && s[j + 1] == b[j - |a| + 1];
          assert PlaceholderAt(b, j - |a|);
        }
      }
    }
    if |b| > 0 {
      assert s[|s| - 1] == b[|b| - 1];
    } else {
      assert s == a;
    }
  }

  /** A clean prefix is never touched by ReplaceFirst. */
  lemma {:induction false} ReplaceFirstSkip(p: string, s: string, v: string)
    requires Clean(p)
    ensures ReplaceFirst(p + s, v) == p + ReplaceFirst(s, v)
    decreases |p|
  {
    if p != [] {
      assert (p + s)[0] == p[0];
      if |p + s| >= 2 {
        if |p| >= 2 {
          assert (p + s)[1] == p[1];
          assert !PlaceholderAt(p, 0);
        } else {
          assert p[0] != '{';
        }
        assert (p + s)[1..] == p[1..] + s;
        CleanTail(p);
        ReplaceFirstSkip(p[1..], s, v);
        assert p + ReplaceFirst(s, v) == [p[0]] + (p[1..] + ReplaceFirst(s, v));
      } else {
        assert s == [] && p + s == p;
        assert ReplaceFirst(s, v) == [];
      }
    } else {
      assert p + s == s;
    }
  }

  /** ...and never touched by the whole loop. */
  lemma {:induction false} FormatSkip(p: string, s: string, values: seq<string>)
    requires Clean(p)
    ensures Format(p + s, values) == p + Format(s, values)
    decreases |values|
  {
    if values != [] {
      ReplaceFirstSkip(p, s, values[0]);
      FormatSkip(p, ReplaceFirst(s, values[0]), values[1..]);
    }
  }

  /**
   * The text between placeholders, `segs[0] {} segs[1] {} ... segs[n]`,
   * with the first values in the slots and literal `{}` in the slots
   * left over.
   */
  function Weave(segs: seq<string>, values: seq<string>): string
    requires |segs| >= 1
  {
    if |segs| == 1 then segs[0]
    else if values == [] then segs[0] + "{}" + Weave(segs[1..], [])
    else segs[0] + values[0] + Weave(segs[1..], values[1..])
  }

  predicate AllClean(xs: seq<string>) {
    forall i :: 0 <= i < |xs| ==> Clean(xs[i])
  }

  /**
   * Positional filling: value k goes into placeholder k, surplus values
   * are dropped and surplus placeholders stay literal `{}`, so long as the
   * text pieces and the values are clean (a `{` of their own, as in
   * `"{k: {}}"`, is fine; a `{}` of their own is not).
   */
  lemma {:induction false} FormatFillsInOrder(segs: seq<string>, values: seq<string>)
    requires |segs| >= 1 && AllClean(segs) && AllClean(values)
    ensures Format(Weave(segs, []), values) == Weave(segs, values)
    decreases |segs|
  {
    if |segs| == 1 {
      FormatNoPlaceholder(segs[0], values);
    } else if values != [] {
      var rest := Weave(segs[1..], []);
      assert Weave(segs, []) == segs[0] + ("{}" + rest);
      ReplaceFirstSkip(segs[0], "{}" + rest, values[0]);
      assert ("{}" + rest)[2..] == rest;
      var once := segs[0] + values[0] + rest;
      assert ReplaceFirst(Weave(segs, []), values[0]) == once;
      CleanConcat(segs[0], values[0]);
      FormatSkip(segs[0] + values[0], rest, values[1..]);
      assert AllClean(segs[1..]) by {
        forall i | 0 <= i < |segs[1..]| ensures Clean(segs[1..][i]) { assert segs[1..][i] == segs[i + 1]; }
      }
      assert AllClean(values[1..]) by {
        forall i | 0 <= i < |values[1..]| ensures Clean(values[1..][i]) { assert values[1..][i] == values[i + 1]; }
      }
      FormatFillsInOrder(segs[1..], values[1..]);
    }
  }

  /** The two-value template of the PyFormat test: name first, code second. */
  lemma FormatTwoValues(name: string, code: string)
    requires Clean(name) && Clean(code)
    ensures Format("姓名：{}，代号：{}。", [name, code]) == "姓名：" + name + "，代号：" + code + "。"
  {
    var segs := ["姓名：", "，代号：", "。"];
    assert Weave(segs, []) == "姓名：{}，代号：{}。" by {
      assert Weave(segs[2..], []) == "。";
      assert Weave(segs[1..], []) == "，代号：" + "{}" + "。";
    }
    assert Weave(segs, [name, code]) == "姓名：" + name + "，代号：" + code + "。" by {
      assert segs[1..][1..] == segs[2..];
      assert [name, code][1..] == [code];
      assert Weave(segs[1..], [code]) == "，代号：" + code + Weave(segs[2..], []);
    }
    forall i | 0 <= i < |segs| ensures Clean(segs[i]) {
      if i == 0 { assert segs[0] == "姓名："; }
      BraceFreeClean(segs[i]);
    }
    FormatFillsInOrder(segs, [name, code]);
  }

  /** A `{` of the template's own, outside a `{}`, stays where it is. */
  lemma FormatKeepsStrayBrace(v: string)
    requires Clean(v)
    ensures Format("{k: {}}", [v]) == "{k: " + v + "}"
  {
    var segs := ["{k: ", "}"];
    assert Weave(segs, []) == "{k: {}}" by {
      assert Weave(segs[1..], []) == "}";
    }
    assert Weave(segs, [v]) == "{k: " + v + "}" by {
      assert [v][1..] == [];
      assert Weave(segs[1..], []) == "}";
    }
    assert Clean(segs[0]) by {
      forall j | 0 <= j < |segs[0]| ensures !PlaceholderAt(segs[0], j) {
        assert segs[0][1] != '}' && segs[0][2] != '{' && segs[0][3] != '{';
      }
    }
    BraceFreeClean(segs[1]);
    assert AllClean(segs) by {
      forall i | 0 <= i < |segs| ensures Clean(segs[i]) { }
    }
    assert AllClean([v]);
    FormatFillsInOrder(segs, [v]);
  }

  /**
   * Values are substituted into the text as they are, so a value that
   * itself contains `{}` takes the next value in place of the template's
   * own second slot.
   */
  lemma FormatValueReopens()
    ensures Format("{} {}", ["{}", "x"]) == "x {}"
  {
    assert ReplaceFirst("{} {}", "{}") == "{} {}";
    assert ReplaceFirst("{} {}", "x") == "x {}";
    assert ["{}", "x"][1..] == ["x"];
  }

  // ---- Print ----

  const Esc: char := '\U{1B}'

  /** The `colors` table of ANSI foreground codes. */
  const Colors: map<string, string> := map[
    "black" := "30", "red" := "31", "green" := "32", "yellow" := "33",
    "blue" := "34", "magenta" := "35", "cyan" := "36", "white" := "37",
    "gray" := "90", "light_red" := "91", "light_green" := "92", "light_yellow" := "93",
    "light_blue" := "94", "light_magenta" := "95", "light_cyan" := "96", "light_white" := "97"]

  /** The text Print writes for `content` in `color`. */
  function Render(content: string, color: string): string {
    if color in Colors then [Esc] + "[" + Colors[color] + "m" + content + [Esc] + "[0m\n"
    else content + "\n"
  }

  /** The names of the table: eight plain colours and their light variants (gray for light black). */
  const Plain: set<string> := {"black", "red", "green", "yellow", "blue", "magenta", "cyan", "white"}
  const Bright: set<string> := {"gray", "light_red", "light_green", "light_yellow", "light_blue", "light_magenta", "light_cyan", "light_white"}

  lemma ColorsKeys()
    ensures Colors.Keys == Plain + Bright
  {
    forall k | k in Colors ensures k in Plain + Bright { }
    forall k | k in Plain + Bright ensures k in Colors { }
  }

  lemma PlainCount()
    ensures |Plain| == 8
  {
  }

  lemma BrightCount()
    ensures |Bright| == 8
  {
  }

  lemma PlainBrightDisjoint()
    ensures Plain * Bright == {}
  {
    forall k | k in Plain ensures k !in Bright {
      assert |k| <= 7;
    }
  }

  /** The table has sixteen names. */
  lemma ColorsCount()
    ensures |Colors| == 16
  {
    ColorsKeys();
    PlainCount();
    BrightCount();
    PlainBrightDisjoint();
    assert |Plain + Bright| + |Plain * Bright| == |Plain| + |Bright|;
  }

  /** ...mapped to 30-37 and 90-97. */
  lemma ColorsCodes()
    ensures Colors.Values == {"30", "31", "32", "33", "34", "35", "36", "37",
                              "90", "91", "92", "93", "94", "95", "96", "97"}
  {
    forall k | k in Colors ensures Colors[k] in {"30", "31", "32", "33", "34", "35", "36", "37", "90", "91", "92", "93", "94", "95", "96", "97"} {
    }
    assert Colors["black"] == "30";
    assert Colors["red"] == "31";
    assert Colors["green"] == "32";
    assert Colors["yellow"] == "33";
    assert Colors["blue"] == "34";
    assert Colors["magenta"] == "35";
    assert Colors["cyan"] == "36";
    assert Colors["white"] == "37";
    assert Colors["gray"] == "90";
    assert Colors["light_red"] == "91";
    assert Colors["light_green"] == "92";
    assert Colors["light_yellow"] == "93";
    assert Colors["light_blue"] == "94";
    assert Colors["light_magenta"] == "95";
    assert Colors["light_cyan"] == "96";
    assert Colors["light_white"] == "97";
  }

  /**
   * A colour changes the output exactly when its name is in the table
   * (`""` and unknown names print the plain line), and the content is
   * always written whole between the colour code and the reset.
   */
  lemma RenderColoured(content: string, color: string)
    ensures Render(content, color) != content + "\n" <==> color in Colors
    ensures color in Colors ==>
      Render(content, color) == [Esc] + "[" + Colors[color] + "m" + content + [Esc] + "[0m\n"
  {
    if color in Colors {
      var r := Render(content, color);
      assert r[0] == Esc;
      if |content| > 0 {
        assert (content + "\n")[0] == content[0];
        assert |r| > |content + "\n"|;
      }
    }
  }

  /** The Printer shortcuts: Red, Green, Yellow and Blue. */
  function Red(content: string): (r: string)
    ensures r == [Esc] + "[31m" + content + [Esc] + "[0m\n"
  {
    Render(content, "red")
  }

  function Green(content: string): (r: string)
    ensures r == [Esc] + "[32m" + content + [Esc] + "[0m\n"
  {
    Render(content, "green")
  }

  function Yellow(content: string): (r: string)
    ensures r == [Esc] + "[33m" + content + [Esc] + "[0m\n"
  {
    Render(content, "yellow")
  }

  function Blue(content: string): (r: string)
    ensures r == [Esc] + "[34m" + content + [Esc] + "[0m\n"
  {
    Render(content, "blue")
  }
}
