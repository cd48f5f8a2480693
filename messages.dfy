/** The banners of ToL_install/messages.py: `DisplayMessage`, which builds
    a title line, a stamped and wrapped body and a footer and joins the
    three with line breaks, and the fixed-width title helpers. */
module Messages {
  import opened Text
  import opened Py

  /** `f"{stamp.upper()} " if stamp else ''`. */
  function StampOf(stamp: Option<string>): (r: string)
    ensures stamp.None? || stamp.value == "" <==> r == ""
    ensures stamp.Some? && stamp.value != "" ==>
      |r| == |stamp.value| + 1 && r[|r| - 1] == ' ' &&
      forall i :: 0 <= i < |stamp.value| ==> r[i] == UpperChar(stamp.value[i])
  {
    if stamp.Some? && stamp.value != "" then Upper(stamp.value) + " " else ""
  }

  /** `maketitle`: `" {} ".format(title.upper())` centred to `width` with
      `fill`; a title without `upper` (None) gives the empty line. */
  function TitleLine(title: Option<string>, width: nat, fill: char): string {
    if title.None? then "" else Center(" " + Upper(title.value) + " ", width, fill)
  }

  /** A title line is `width` long unless the padded title is longer, and
      stripping the fill character gives back the padded, upper-cased title. */
  lemma TitleLineShape(title: string, width: nat, fill: char)
    requires fill != ' '
    ensures var t := TitleLine(Some(title), width, fill);
      |t| == (if width <= |title| + 2 then |title| + 2 else width) &&
      TrimChar(t, fill) == " " + Upper(title) + " "
  {
    var padded := " " + Upper(title) + " ";
    CenterShape(padded, width, fill);
    CenterTrim(padded, width, fill);
  }

  /** `makefooter`: `fill * width` when a footer is wanted. */
  function FooterLine(footer: bool, width: nat, fill: char): (f: string)
    ensures |f| == if footer then width else 0
    ensures forall i :: 0 <= i < |f| ==> f[i] == fill
  {
    if footer then Repeat(fill, width) else ""
  }

  /** Each wrapped segment behind the stamp. */
  function Stamped(stamp: string, segments: seq<string>): (r: seq<string>)
    ensures |r| == |segments|
    ensures forall k :: 0 <= k < |r| ==> r[k] == stamp + segments[k]
  {
    seq(|segments|, k requires 0 <= k < |segments| => stamp + segments[k])
  }

  /** The body lines `makemsg` collects from the wrapped source lines. */
  function BodyLines(stamp: string, groups: seq<seq<string>>): seq<string>
    decreases |groups|
  {
    if groups == [] then []
    else BodyLines(stamp, groups[..|groups| - 1]) + Stamped(stamp, groups[|groups| - 1])
  }

  /** All wrapped segments, in order. */
  function Flatten(groups: seq<seq<string>>): seq<string>
    decreases |groups|
  {
    if groups == [] then [] else groups[0] + Flatten(groups[1..])
  }

  lemma {:induction false} FlattenAppend(groups: seq<seq<string>>, g: seq<string>)
    ensures Flatten(groups + [g]) == Flatten(groups) + g
    decreases |groups|
  {
    if groups == [] {
      assert [g][1..] == [];
    } else {
      assert (groups + [g])[1..] == groups[1..] + [g];
      FlattenAppend(groups[1..], g);
    }
  }

  /** Every body line is the stamp followed by one wrapped segment, the
      segments in their order, so a source line that wraps to nothing
      contributes no line. */
  lemma {:induction false} BodyLinesStampSegments(stamp: string, groups: seq<seq<string>>)
    ensures BodyLines(stamp, groups) == Stamped(stamp, Flatten(groups))
    decreases |groups|
  {
    if groups != [] {
      var front, last := groups[..|groups| - 1], groups[|groups| - 1];
      BodyLinesStampSegments(stamp, front);
      assert front + [last] == groups;
      FlattenAppend(front, last);
    }
  }

  /** The wrapped source lines: `dedent` and `wrap` stand for `textwrap`. */
  function Wrapped(msg: string, width: nat, dedent: string -> string,
                   wrap: (string, nat) -> seq<string>): seq<seq<string>>
  {
    var lines := SplitLines(dedent(msg));
    seq(|lines|, i requires 0 <= i < |lines| => wrap(lines[i], width))
  }

  /** `"\n".join([title, body, footer])`. */
  function Joined(title: string, body: string, footer: string): (r: string)
    ensures |r| == |title| + |body| + |footer| + 2
  {
    title + "\n" + body + "\n" + footer
  }

  lemma SplitOnSingle(c: char, s: string)
    requires c !in s
    ensures SplitOn(c, s) == [s]
  {
    FieldLengthUnique(c, s, |s|);
  }

  /** Splitting the message at its line breaks gives the title line, the
      body lines (one empty line when there are none) and the footer: the
      three parts are always there. */
  lemma JoinedBody(lines: seq<string>)
    requires forall i :: 0 <= i < |lines| ==> '\n' !in lines[i]
    ensures SplitOn('\n', JoinWith("\n", lines)) == if lines == [] then [""] else lines
  {
    if lines != [] {
      SplitOnJoin('\n', lines);
    } else {
      SplitOnSingle('\n', "");
    }
  }

  lemma SplitOnThree(c: char, a: string, b: string, d: string)
    ensures SplitOn(c, a + [c] + b + [c] + d) == SplitOn(c, a) + SplitOn(c, b) + SplitOn(c, d)
  {
    assert a + [c] + b + [c] + d == a + [c] + (b + [c] + d);
    SplitOnConcat(c, a, b + [c] + d);
    SplitOnConcat(c, b, d);
  }

  lemma JoinedParts(title: string, lines: seq<string>, footer: string)
    requires '\n' !in title && '\n' !in footer
    requires forall i :: 0 <= i < |lines| ==> '\n' !in lines[i]
    ensures SplitOn('\n', Joined(title, JoinWith("\n", lines), footer)) ==
      [title] + (if lines == [] then [""] else lines) + [footer]
  {
    var body := JoinWith("\n", lines);
    SplitOnThree('\n', title, body, footer);
    JoinedBody(lines);
    SplitOnSingle('\n', footer);
    SplitOnSingle('\n', title);
  }

  /** A centred string has no line break when neither the string nor the
      fill character is one. */
  lemma CenterSingleLine(s: string, width: nat, fill: char)
    requires '\n' !in s && fill != '\n'
    ensures '\n' !in Center(s, width, fill)
  {
    if width > |s| {
      var left := (width - |s|) / 2;
      var c := Center(s, width, fill);
      assert c == Repeat(fill, left) + s + Repeat(fill, width - |s| - left);
      forall i | 0 <= i < |c| ensures c[i] != '\n' {
        if left <= i < left + |s| {
          assert c[i] == s[i - left];
        }
      }
    }
  }

  lemma UpperSingleLine(s: string)
    requires '\n' !in s
    ensures '\n' !in Upper(s)
  {
    forall i | 0 <= i < |s| ensures Upper(s)[i] != '\n' {
      assert s[i] != '\n';
    }
  }

  class DisplayMessage {
    const msg: string
    const title: Option<string>
    const stamp: string
    const msgchar: char
    const width: nat
    const footer: bool

    var titlemsg: string
    var bodymsg: string
    var footermsg: string

    /** `DisplayMessage(msg, title=..., stamp=..., msgchar=..., width=...,
        footer=...)`: stores the options and builds the three parts. */
    constructor (msg: string, title: Option<string>, stamp: Option<string>, msgchar: char, width: nat,
                 footer: bool, dedent: string -> string, wrap: (string, nat) -> seq<string>)
      requires msgchar != '{' && msgchar != '}'
      ensures this.msg == msg && this.title == title && this.stamp == StampOf(stamp)
      ensures this.msgchar == msgchar && this.width == width && this.footer == footer
      ensures titlemsg == TitleLine(title, width, msgchar)
      ensures bodymsg == JoinWith("\n", BodyLines(StampOf(stamp), Wrapped(msg, width, dedent, wrap)))
      ensures footermsg == FooterLine(footer, width, msgchar)
    {
      this.msg := msg;
      this.title := title;
      this.stamp := StampOf(stamp);
      this.msgchar := msgchar;
      this.width := width;
      this.footer := footer;
      titlemsg, bodymsg, footermsg := "", "", "";
      new;
      MakeTitle();
      MakeMsg(dedent, wrap);
      MakeFooter();
    }

    /** `maketitle`. */
    method MakeTitle()
      requires msgchar != '{' && msgchar != '}'
      modifies this
      ensures titlemsg == TitleLine(title, width, msgchar)
      ensures bodymsg == old(bodymsg) && footermsg == old(footermsg)
    {
      if title.None? {
        titlemsg := "";
      } else {
        var t := " " + Upper(title.value) + " ";
        titlemsg := Center(t, width, msgchar);
      }
    }

    /** `makemsg`: every wrapped segment of every source line becomes one
        body line behind the stamp. */
    method MakeMsg(dedent: string -> string, wrap: (string, nat) -> seq<string>)
      modifies this
      ensures bodymsg == JoinWith("\n", BodyLines(stamp, Wrapped(msg, width, dedent, wrap)))
      ensures titlemsg == old(titlemsg) && footermsg == old(footermsg)
    {
      var groups := Wrapped(msg, width, dedent, wrap);
      var m: seq<string> := [];
      var i := 0;
      while i < |groups|
        invariant 0 <= i <= |groups|
        invariant m == BodyLines(stamp, groups[..i])
      {
        var l := groups[i];
        assert groups[..i + 1][..i] == groups[..i];
        if l != [] {
          var j := 0;
          while j < |l|
            invariant 0 <= j <= |l|
            invariant m == BodyLines(stamp, groups[..i]) + Stamped(stamp, l[..j])
          {
            assert l[..j + 1] == l[..j] + [l[j]];
            m := m + [stamp + l[j]];
            j := j + 1;
          }
          assert l[..j] == l;
        }
        i := i + 1;
      }
      assert groups[..i] == groups;
      bodymsg := JoinWith("\n", m);
    }

    /** `makefooter`: the footer stays empty when none is wanted. */
    method MakeFooter()
      modifies this
      ensures footer ==> footermsg == Repeat(msgchar, width)
      ensures !footer ==> footermsg == old(footermsg)
      ensures titlemsg == old(titlemsg) && bodymsg == old(bodymsg)
    {
      if footer {
        footermsg := Repeat(msgchar, width);
      }
    }

    /** `__str__`: the three parts joined by line breaks. */
    function Str(): string
      reads this
    {
      Joined(titlemsg, bodymsg, footermsg)
    }
  }

  // ---------------------------------------------------------------------
  // The fixed-width titles

  /** `_formats_main_title(s)`. */
  function MainTitle(s: string): string {
    var star := Repeat('*', 72);
    var title := "*** " + Center(Upper(s), 64, ' ') + " ***";
    star + "\n" + title + "\n" + star + "\n"
  }

  /** The main title is three lines: a rule of 72 stars, the upper-cased
      title centred between `*** ` and ` ***`, and the rule again. The middle
      line is 72 characters wide for titles of at most 64 characters, and
      trimming its spaces gives back the upper-cased title. */
  lemma MainTitleShape(s: string)
    requires '\n' !in s
    ensures var mid := "*** " + Center(Upper(s), 64, ' ') + " ***";
      SplitOn('\n', MainTitle(s)) == [Repeat('*', 72), mid, Repeat('*', 72), ""] &&
      (|s| <= 64 ==> |mid| == 72)
    ensures |s| > 0 && s[0] != ' ' && s[|s| - 1] != ' ' ==>
      TrimChar(Center(Upper(s), 64, ' '), ' ') == Upper(s)
  {
    var star := Repeat('*', 72);
    var mid := "*** " + Center(Upper(s), 64, ' ') + " ***";
    MainTitleMiddle(s);
    FramedLines(star, mid);
    if |s| > 0 && s[0] != ' ' && s[|s| - 1] != ' ' {
      CenterTrim(Upper(s), 64, ' ');
    }
  }

  /** Two single lines framed as rule, line, rule, each ending in a line
      break, split back into those three lines and an empty rest. */
  lemma FramedLines(rule: string, line: string)
    requires '\n' !in rule && '\n' !in line
    ensures SplitOn('\n', rule + "\n" + line + "\n" + rule + "\n") == [rule, line, rule, ""]
  {
    assert rule + "\n" + line + "\n" + rule + "\n" == rule + ['\n'] + line + ['\n'] + (rule + ['\n'] + "");
    SplitOnThree('\n', rule, line, rule + ['\n'] + "");
    SplitOnConcat('\n', rule, "");
    SplitOnSingle('\n', rule);
    SplitOnSingle('\n', line);
    SplitOnSingle('\n', "");
  }

  /** The framed middle line of the main title is a single line, 72
      characters wide when the title fits in 64. */
  lemma MainTitleMiddle(s: string)
    requires '\n' !in s
    ensures var mid := "*** " + Center(Upper(s), 64, ' ') + " ***";
      '\n' !in mid && (|s| <= 64 ==> |mid| == 72)
  {
    var c := Center(Upper(s), 64, ' ');
    var mid := "*** " + c + " ***";
    UpperSingleLine(s);
    CenterSingleLine(Upper(s), 64, ' ');
    CenterShape(Upper(s), 64, ' ');
    forall i | 0 <= i < |mid| ensures mid[i] != '\n' {
      if 4 <= i < 4 + |c| {
        assert mid[i] == c[i - 4];
      }
    }
  }

  /** `_formats_short_title(s)`. */
  function ShortTitle(s: string): string {
    Center(" " + Upper(s) + " ", 72, '*') + "\n"
  }

  /** The short title is one line ending in a line break: 72 characters
      for titles of at most 70 characters, and trimming its stars gives
      back the padded, upper-cased title. */
  lemma ShortTitleShape(s: string)
    ensures var r := ShortTitle(s);
      r[|r| - 1] == '\n' &&
      (|s| <= 70 ==> |r| == 73) &&
      TrimChar(r[..|r| - 1], '*') == " " + Upper(s) + " "
  {
    var padded := " " + Upper(s) + " ";
    var r := ShortTitle(s);
    CenterShape(padded, 72, '*');
    CenterTrim(padded, 72, '*');
    assert r[..|r| - 1] == Center(padded, 72, '*');
  }
}
