/**
  The pattern language of LogFormatter: the hand-written scanner of `init`, and the printer
  it undoes.
*/
module LogPattern {
  import opened Prelude

  predicate IsAlpha(c: char) {
    'a' <= c <= 'z' || 'A' <= c <= 'Z'
  }

  /** An element of `vec`: text, a directive with its format, or the mark of a format that is
      not closed. */
  datatype Raw = Text(s: string) | Directive(name: string, fmt: string) | PatternError

  // ---------------------------------------------------------------- the scanner as a function

  datatype Scanned = Found(name: string, fmt: string, next: nat) | Unclosed

  /** From position n on, still in the name of the directive at i. */
  function ScanName(p: string, i: nat, n: nat): (r: Scanned)
    requires i < n <= |p|
    ensures r.Found? ==> n <= r.next <= |p|
    decreases |p| - n
  {
    if n == |p| then Found(p[i + 1..], "", n)
    else if p[n] == '{' then ScanFmt(p, p[i + 1..n], n, n + 1)
    else if IsAlpha(p[n]) || p[n] == '}' then ScanName(p, i, n + 1)
    else Found(p[i + 1..n], "", n)
  }

  /** From position n on, in the format that was opened at `begin`. */
  function ScanFmt(p: string, name: string, begin: nat, n: nat): (r: Scanned)
    requires begin < n <= |p|
    ensures r.Found? ==> n <= r.next <= |p|
    decreases |p| - n
  {
    if n == |p| then Unclosed
    else if p[n] == '}' then Found(name, p[begin + 1..n], n + 1)
    else ScanFmt(p, name, begin, n + 1)
  }

  function Flush(nstr: string): seq<Raw> {
    if nstr == "" then [] else [Text(nstr)]
  }

  /** From position i on, with the text collected so far. */
  function Parse(p: string, i: nat, nstr: string): seq<Raw>
    requires i <= |p|
    decreases |p| - i
  {
    if i == |p| then Flush(nstr)
    else if p[i] != '%' then Parse(p, i + 1, nstr + [p[i]])
    else if i + 1 < |p| && p[i + 1] == '%' then Parse(p, i + 1, nstr + "%")
    else
      match ScanName(p, i, i + 1)
      case Found(name, fmt, next) => Flush(nstr) + [Directive(name, fmt)] + Parse(p, next, "")
      case Unclosed => [PatternError] + Parse(p, i + 1, nstr)
  }

  // ---------------------------------------------------------------- the items

  /** A format item: text, or one of the twelve directives with its format. */
  datatype Item = StringItem(s: string) | FormatItem(name: char, fmt: string)

  const Known: string := "mprctndflFNT"

  function ToItem(r: Raw): Item {
    match r
    case Text(s) => StringItem(s)
    case PatternError => StringItem("<<pattern_error>>")
    case Directive(name, fmt) =>
      if |name| == 1 && name[0] in Known then FormatItem(name[0], fmt)
      else StringItem("<<error_format %" + name + ">>")
  }

  predicate IsError(r: Raw) {
    r.PatternError? || (r.Directive? && !(|r.name| == 1 && r.name[0] in Known))
  }

  function ToItems(rs: seq<Raw>): seq<Item> {
    if rs == [] then [] else [ToItem(rs[0])] + ToItems(rs[1..])
  }

  // ---------------------------------------------------------------- init

  class LogFormatter {
    const pattern: string
    var items: seq<Item>
    var error: bool

    constructor (pattern: string)
      ensures this.pattern == pattern
      ensures items == ToItems(Parse(pattern, 0, ""))
      ensures error <==> exists r :: r in Parse(pattern, 0, "") && IsError(r)
    {
      this.pattern := pattern;
      items, error := [], false;
      new;
      Init();
    }

    /** The inner loop: the directive at i. */
    method ScanDirective(i: nat) returns (str: string, fmt: string, n: nat, status: int)
      requires i < |pattern|
      ensures match ScanName(pattern, i, i + 1) {
                case Found(name, f, next) => status == 0 && str == name && fmt == f && n == next
                case Unclosed => status == 1 && fmt == ""
              }
    {
      var begin: nat := 0;
      n, status, str, fmt := i + 1, 0, "", "";
      if n == |pattern| {
        assert pattern[i + 1..] == "";
      }
      while n < |pattern|
        invariant i < n <= |pattern| && (status == 0 || status == 1) && fmt == ""
        invariant status == 0 && n < |pattern| ==> str == "" && ScanName(pattern, i, i + 1) == ScanName(pattern, i, n)
        invariant status == 0 && n == |pattern| ==> ScanName(pattern, i, i + 1) == Found(str, "", n)
        invariant status == 1 ==> begin < n
        invariant status == 1 && n < |pattern| ==> ScanName(pattern, i, i + 1) == ScanFmt(pattern, str, begin, n)
        invariant status == 1 && n == |pattern| ==> ScanName(pattern, i, i + 1) == Unclosed
        decreases |pattern| - n
      {
        if status == 0 && !IsAlpha(pattern[n]) && pattern[n] != '{' && pattern[n] != '}' {
          str := pattern[i + 1..n];
          break;
        }
        if status == 0 {
          if pattern[n] == '{' {
            str := pattern[i + 1..n];
            status, begin := 1, n;
            n := n + 1;
            continue;
          }
        } else if status == 1 {
          if pattern[n] == '}' {
            fmt := pattern[begin + 1..n];
            status := 0;
            n := n + 1;
            break;
          }
        }
        n := n + 1;
        if n == |pattern| {
          if str == "" {
            str := pattern[i + 1..];
          }
        }
      }
    }

    /** init */
    method Init()
      requires items == [] && !error
      modifies this
      ensures items == ToItems(Parse(pattern, 0, ""))
      ensures error <==> exists r :: r in Parse(pattern, 0, "") && IsError(r)
    {
      var vec: seq<Raw> := [];
      var nstr, i: nat := "", 0;
      while i < |pattern|
        invariant i <= |pattern| && items == []
        invariant vec + Parse(pattern, i, nstr) == Parse(pattern, 0, "")
        invariant error <==> PatternError in vec
      {
        if pattern[i] != '%' {
          nstr, i := nstr + [pattern[i]], i + 1;
          continue;
        }
        if i + 1 < |pattern| {
          if pattern[i + 1] == '%' {
            nstr, i := nstr + "%", i + 1;
            continue;
          }
        }
        vec, nstr, i := AddDirective(i, vec, nstr);
        i := i + 1;
      }
      if nstr != "" {
        vec := vec + [Text(nstr)];
      }
      assert vec == Parse(pattern, 0, "");
      MakeItems(vec);
    }

    /** The end of a pass of that loop: what the inner loop has found at i. */
    method AddDirective(i: nat, vec0: seq<Raw>, nstr0: string) returns (vec: seq<Raw>, nstr: string, i': nat)
      requires i < |pattern| && pattern[i] == '%' && !(i + 1 < |pattern| && pattern[i + 1] == '%')
      requires error <==> PatternError in vec0
      modifies this`error
      ensures i <= i' < |pattern| && vec + Parse(pattern, i' + 1, nstr) == vec0 + Parse(pattern, i, nstr0)
      ensures error <==> PatternError in vec
    {
      vec, nstr, i' := vec0, nstr0, i;
      var str, fmt, n, status := ScanDirective(i);
      if status == 0 {
        if nstr != "" {
          vec := vec + [Text(nstr)];
          nstr := "";
        }
        vec := vec + [Directive(str, fmt)];
        i' := n - 1;
      } else if status == 1 {
        error := true;
        vec := vec + [PatternError];
      }
    }

    /** The loop that turns the elements of `vec` into items. */
    method MakeItems(vec: seq<Raw>)
      requires items == [] && (error <==> PatternError in vec)
      modifies this
      ensures items == ToItems(vec)
      ensures error <==> exists r :: r in vec && IsError(r)
    {
      var k := 0;
      while k < |vec|
        invariant k <= |vec| && items == ToItems(vec[..k])
        invariant error <==> PatternError in vec || exists j :: 0 <= j < k && IsError(vec[j])
      {
        ToItemsSnoc(vec[..k], vec[k]);
        assert vec[..k + 1] == vec[..k] + [vec[k]];
        if !vec[k].Directive? {
          items := items + [ToItem(vec[k])];
        } else if !(|vec[k].name| == 1 && vec[k].name[0] in Known) {
          items := items + [ToItem(vec[k])];
          error := true;
        } else {
          items := items + [FormatItem(vec[k].name[0], vec[k].fmt)];
        }
        k := k + 1;
      }
      assert vec[..k] == vec;
    }
  }

  lemma {:induction false} ToItemsSnoc(a: seq<Raw>, r: Raw)
    ensures ToItems(a + [r]) == ToItems(a) + [ToItem(r)]
  {
    if a != [] {
      assert (a + [r])[1..] == a[1..] + [r];
      ToItemsSnoc(a[1..], r);
    }
  }

  // ---------------------------------------------------------------- the printer

  /** What a pattern is meant to say. */
  datatype Part = Literal(s: string) | Field(name: string, fmt: Option<string>)

  function PrintPart(x: Part): string {
    match x
    case Literal(s) => s
    case Field(name, None) => "%" + name
    case Field(name, Some(fmt)) => "%" + name + "{" + fmt + "}"
  }

  function Print(xs: seq<Part>): string {
    if xs == [] then "" else PrintPart(xs[0]) + Print(xs[1..])
  }

  /** The text cannot be taken for more of the directive before it. */
  predicate EndsField(s: string) {
    s != "" ==> !IsAlpha(s[0]) && s[0] != '{' && s[0] != '}'
  }

  /** Literals are without '%', names are words, formats are without '}', and what follows a
      directive without format begins with neither a letter nor a brace. */
  predicate Printable(xs: seq<Part>) {
    xs != [] ==>
      && Printable(xs[1..])
      && match xs[0] {
           case Literal(s) => '%' !in s
           case Field(name, fmt) =>
             && IsWord(name)
             && match fmt {
                  case None => EndsField(Print(xs[1..]))
                  case Some(f) => '}' !in f
                }
         }
  }

  /** The parts with adjacent literals merged, `nstr` standing before them. */
  function Merged(nstr: string, xs: seq<Part>): seq<Raw>
    decreases |xs|
  {
    if xs == [] then Flush(nstr)
    else
      match xs[0]
      case Literal(s) => Merged(nstr + s, xs[1..])
      case Field(name, fmt) => Flush(nstr) + [Directive(name, if fmt.Some? then fmt.value else "")] + Merged("", xs[1..])
  }

  lemma {:induction false} ParseText(p: string, i: nat, n: nat, nstr: string)
    requires i <= n <= |p| && '%' !in p[i..n]
    ensures Parse(p, i, nstr) == Parse(p, n, nstr + p[i..n])
    decreases n - i
  {
    if i < n {
      assert p[i] == p[i..n][0] && p[i + 1..n] == p[i..n][1..];
      ParseText(p, i + 1, n, nstr + [p[i]]);
      assert nstr + [p[i]] + p[i + 1..n] == nstr + p[i..n];
    } else {
      assert nstr + p[i..n] == nstr;
    }
  }

  lemma {:induction false} ScanWord(p: string, i: nat, n: nat, m: nat)
    requires i < n <= m <= |p| && forall k | n <= k < m :: IsAlpha(p[k])
    ensures ScanName(p, i, n) == ScanName(p, i, m)
    decreases m - n
  {
    if n < m {
      ScanWord(p, i, n + 1, m);
    }
  }

  lemma {:induction false} ScanBraces(p: string, name: string, begin: nat, n: nat, m: nat)
    requires begin < n <= m < |p| && p[m] == '}' && forall k | n <= k < m :: p[k] != '}'
    ensures ScanFmt(p, name, begin, n) == Found(name, p[begin + 1..m], m + 1)
    decreases m - n
  {
    if n < m {
      ScanBraces(p, name, begin, n + 1, m);
    }
  }

  lemma Middle(a: string, b: string, c: string, u: nat, v: nat)
    requires u <= v <= |b|
    ensures (a + b + c)[|a| + u..|a| + v] == b[u..v]
  {
  }

  lemma MiddleAt(a: string, b: string, c: string, k: nat)
    requires k < |b + c|
    ensures (a + b + c)[|a| + k] == if k < |b| then b[k] else c[k - |b|]
  {
  }

  predicate IsWord(name: string) {
    name != "" && forall k | 0 <= k < |name| :: IsAlpha(name[k])
  }

  /** The scanner on a directive without format. */
  lemma PlainScanned(p: string, i: nat, m: nat)
    requires i + 1 <= m <= |p| && IsWord(p[i + 1..m]) && EndsField(p[m..])
    ensures ScanName(p, i, i + 1) == Found(p[i + 1..m], "", m)
  {
    assert forall k | i + 1 <= k < m :: p[k] == p[i + 1..m][k - (i + 1)];
    ScanWord(p, i, i + 1, m);
    assert m < |p| ==> p[m] == p[m..][0];
  }

  /** The scanner on a directive with a format. */
  lemma FormatScanned(p: string, i: nat, m: nat, n: nat)
    requires i + 1 <= m < n < |p| && IsWord(p[i + 1..m]) && p[m] == '{' && '}' !in p[m + 1..n] && p[n] == '}'
    ensures ScanName(p, i, i + 1) == Found(p[i + 1..m], p[m + 1..n], n + 1)
  {
    assert forall k | i + 1 <= k < m :: p[k] == p[i + 1..m][k - (i + 1)];
    ScanWord(p, i, i + 1, m);
    assert forall k | m + 1 <= k < n :: p[k] == p[m + 1..n][k - (m + 1)];
    ScanBraces(p, p[i + 1..m], m, m + 1, n);
  }

  /** Where the pieces of a printed directive are. */
  lemma FieldPieces(name: string, fmt: Option<string>)
    ensures var part, m := PrintPart(Field(name, fmt)), 1 + |name|;
            && |part| >= m && part[0] == '%' && part[1..m] == name
            && (fmt.None? ==> |part| == m)
            && (fmt.Some? ==> |part| == m + 2 + |fmt.value| && part[m] == '{' && part[m + 1..|part| - 1] == fmt.value
                              && part[|part| - 1] == '}')
  {
  }

  /** The scanner on one printed directive. */
  lemma FieldScanned(a: string, name: string, fmt: Option<string>, rest: string)
    requires IsWord(name)
    requires if fmt.Some? then '}' !in fmt.value else EndsField(rest)
    ensures var p, part := a + PrintPart(Field(name, fmt)) + rest, PrintPart(Field(name, fmt));
            && p[|a|] == '%' && !(|a| + 1 < |p| && p[|a| + 1] == '%')
            && ScanName(p, |a|, |a| + 1) == Found(name, if fmt.Some? then fmt.value else "", |a| + |part|)
  {
    var part, i, m := PrintPart(Field(name, fmt)), |a|, 1 + |name|;
    FieldPieces(name, fmt);
    var p := a + part + rest;
    Middle(a, part, rest, 1, m);
    MiddleAt(a, part, rest, 0);
    MiddleAt(a, part, rest, 1);
    assert part[1] == part[1..m][0];
    if fmt.Some? {
      var n := |part| - 1;
      Middle(a, part, rest, m + 1, n);
      MiddleAt(a, part, rest, m);
      MiddleAt(a, part, rest, n);
      FormatScanned(p, i, i + m, i + n);
    } else {
      assert p[i + m..] == rest;
      PlainScanned(p, i, i + m);
    }
  }

  lemma LiteralCase(a: string, nstr: string, xs: seq<Part>)
    requires xs != [] && xs[0].Literal? && '%' !in xs[0].s
    requires Parse(a + xs[0].s + Print(xs[1..]), |a + xs[0].s|, nstr + xs[0].s) == Merged(nstr + xs[0].s, xs[1..])
    ensures Parse(a + xs[0].s + Print(xs[1..]), |a|, nstr) == Merged(nstr, xs)
  {
    Middle(a, xs[0].s, Print(xs[1..]), 0, |xs[0].s|);
    ParseText(a + xs[0].s + Print(xs[1..]), |a|, |a + xs[0].s|, nstr);
  }

  lemma FieldCase(a: string, nstr: string, xs: seq<Part>)
    requires xs != [] && xs[0].Field? && Printable(xs)
    requires Parse(a + PrintPart(xs[0]) + Print(xs[1..]), |a + PrintPart(xs[0])|, "") == Merged("", xs[1..])
    ensures Parse(a + PrintPart(xs[0]) + Print(xs[1..]), |a|, nstr) == Merged(nstr, xs)
  {
    var p := a + PrintPart(xs[0]) + Print(xs[1..]);
    assert xs[0] == Field(xs[0].name, xs[0].fmt);
    FieldScanned(a, xs[0].name, xs[0].fmt, Print(xs[1..]));
    var r := ScanName(p, |a|, |a| + 1);
    DirectiveStep(p, |a|, nstr, r);
    assert r.next == |a + PrintPart(xs[0])|;
    MergedNext(nstr, xs);
    var rest := Parse(p, r.next, "");
    assert rest == Merged("", xs[1..]);
  }

  lemma DirectiveStep(p: string, i: nat, nstr: string, r: Scanned)
    requires i < |p| && p[i] == '%' && !(i + 1 < |p| && p[i + 1] == '%')
    requires r == ScanName(p, i, i + 1) && r.Found?
    ensures Parse(p, i, nstr) == Flush(nstr) + [Directive(r.name, r.fmt)] + Parse(p, r.next, "")
  {
  }

  lemma MergedNext(nstr: string, xs: seq<Part>)
    requires xs != [] && xs[0].Field?
    ensures Merged(nstr, xs)
            == Flush(nstr) + [Directive(xs[0].name, if xs[0].fmt.Some? then xs[0].fmt.value else "")] + Merged("", xs[1..])
  {
  }

  /** Parsing undoes printing, whatever stands before. */
  lemma {:induction false} ParseOfPrint(a: string, nstr: string, xs: seq<Part>)
    requires Printable(xs)
    ensures Parse(a + Print(xs), |a|, nstr) == Merged(nstr, xs)
    decreases |xs|
  {
    if xs != [] {
      var part := PrintPart(xs[0]);
      assert a + Print(xs) == a + part + Print(xs[1..]);
      if xs[0].Literal? {
        ParseOfPrint(a + part, nstr + part, xs[1..]);
        LiteralCase(a, nstr, xs);
      } else {
        ParseOfPrint(a + part, "", xs[1..]);
        FieldCase(a, nstr, xs);
      }
    }
  }

  /** The formatter made from a printed pattern has exactly the parts that were printed. */
  lemma RoundTrip(xs: seq<Part>)
    requires Printable(xs)
    ensures Parse(Print(xs), 0, "") == Merged("", xs)
  {
    ParseOfPrint("", "", xs);
    assert "" + Print(xs) == Print(xs);
  }

  // ---------------------------------------------------------------- the formatter of a printed pattern

  /** The item of every kind of element. */
  lemma ItemMeans(r: Raw)
    ensures r.Text? ==> ToItem(r) == StringItem(r.s) && !IsError(r)
    ensures r.PatternError? ==> ToItem(r) == StringItem("<<pattern_error>>") && IsError(r)
    ensures r.Directive? && IsKnown(r.name) ==> ToItem(r) == FormatItem(r.name[0], r.fmt) && !IsError(r)
    ensures r.Directive? && !IsKnown(r.name) ==> ToItem(r) == StringItem("<<error_format %" + r.name + ">>") && IsError(r)
  {
    if r.Directive? {
      KnownMeans(r.name);
    }
  }

  lemma KnownMeans(name: string)
    ensures |name| == 1 && name[0] in Known <==> IsKnown(name)
  {
    assert Known == ['m', 'p', 'r', 'c', 't', 'n', 'd', 'f', 'l', 'F', 'N', 'T'];
    if |name| == 1 {
      assert name == [name[0]];
    }
    if |name| == 1 && name[0] in Known {
      var j :| 0 <= j < |Known| && Known[j] == name[0];
      assert name == [Known[j]];
    }
    if IsKnown(name) {
      assert Known[0] in Known && Known[1] in Known && Known[2] in Known && Known[3] in Known && Known[4] in Known
             && Known[5] in Known && Known[6] in Known && Known[7] in Known && Known[8] in Known && Known[9] in Known
             && Known[10] in Known && Known[11] in Known;
    }
  }

  /** The twelve directives. */
  predicate IsKnown(name: string) {
    name in {"m", "p", "r", "c", "t", "n", "d", "f", "l", "F", "N", "T"}
  }

  function FieldItem(name: string, fmt: Option<string>): Item {
    if IsKnown(name) then FormatItem(name[0], if fmt.Some? then fmt.value else "")
    else StringItem("<<error_format %" + name + ">>")
  }

  /** The items that these parts are meant to give, behind `text`. */
  function ItemsOf(text: string, xs: seq<Part>): seq<Item>
    decreases |xs|
  {
    var before := if text == "" then [] else [StringItem(text)];
    if xs == [] then before
    else
      match xs[0]
      case Literal(s) => ItemsOf(text + s, xs[1..])
      case Field(name, fmt) => before + [FieldItem(name, fmt)] + ItemsOf("", xs[1..])
  }

  predicate HasUnknown(xs: seq<Part>) {
    exists i :: 0 <= i < |xs| && xs[i].Field? && !IsKnown(xs[i].name)
  }

  lemma {:induction false} ToItemsAppend(a: seq<Raw>, b: seq<Raw>)
    ensures ToItems(a + b) == ToItems(a) + ToItems(b)
  {
    if a == [] {
      assert a + b == b;
    } else {
      assert (a + b)[1..] == a[1..] + b;
      ToItemsAppend(a[1..], b);
    }
  }

  lemma {:induction false} MergedItems(nstr: string, xs: seq<Part>)
    ensures ToItems(Merged(nstr, xs)) == ItemsOf(nstr, xs)
    ensures (exists r :: r in Merged(nstr, xs) && IsError(r)) <==> HasUnknown(xs)
    decreases |xs|
  {
    FlushItems(nstr);
    if xs != [] {
      match xs[0]
      case Literal(s) => MergedItems(nstr + s, xs[1..]); UnknownNext(xs);
      case Field(name, fmt) =>
        var d := Directive(name, if fmt.Some? then fmt.value else "");
        MergedItems("", xs[1..]);
        UnknownNext(xs);
        ItemMeans(d);
        ToItemsAppend(Flush(nstr) + [d], Merged("", xs[1..]));
        ToItemsAppend(Flush(nstr), [d]);
        OneItem(d);
        MergedField(nstr, d, xs);
    }
  }

  lemma FlushItems(nstr: string)
    ensures ToItems(Flush(nstr)) == (if nstr == "" then [] else [StringItem(nstr)])
    ensures forall r | r in Flush(nstr) :: !IsError(r)
  {
    if nstr != "" {
      OneItem(Text(nstr));
    }
  }

  lemma OneItem(r: Raw)
    ensures ToItems([r]) == [ToItem(r)]
  {
    assert [r][1..] == [];
  }

  lemma UnknownNext(xs: seq<Part>)
    requires xs != []
    ensures HasUnknown(xs) <==> (xs[0].Field? && !IsKnown(xs[0].name)) || HasUnknown(xs[1..])
  {
    if i :| 0 <= i < |xs| && xs[i].Field? && !IsKnown(xs[i].name) {
      assert i > 0 ==> xs[1..][i - 1] == xs[i];
    }
    if i :| 0 <= i < |xs[1..]| && xs[1..][i].Field? && !IsKnown(xs[1..][i].name) {
      assert xs[i + 1] == xs[1..][i];
    }
  }

  lemma MergedField(nstr: string, d: Raw, xs: seq<Part>)
    requires xs != [] && xs[0].Field? && d == Directive(xs[0].name, if xs[0].fmt.Some? then xs[0].fmt.value else "")
    requires forall r | r in Flush(nstr) :: !IsError(r)
    ensures Merged(nstr, xs) == Flush(nstr) + [d] + Merged("", xs[1..])
    ensures (exists r :: r in Merged(nstr, xs) && IsError(r)) <==> IsError(d) || exists r :: r in Merged("", xs[1..]) && IsError(r)
  {
    var m, rest := Merged(nstr, xs), Merged("", xs[1..]);
    assert m == Flush(nstr) + [d] + rest;
    forall r ensures r in m <==> r in Flush(nstr) || r == d || r in rest {
    }
  }

  /** Exactly which lists can be printed and parsed back. */
  lemma {:induction false} PrintableMeans(xs: seq<Part>)
    ensures Printable(xs) <==> forall i | 0 <= i < |xs| :: PartAt(xs, i)
  {
    if xs != [] {
      PrintableMeans(xs[1..]);
      FirstPart(xs);
      RestParts(xs);
    }
  }

  lemma FirstPart(xs: seq<Part>)
    requires xs != []
    ensures Printable(xs) <==> PartAt(xs, 0) && Printable(xs[1..])
  {
    assert xs[0 + 1..] == xs[1..];
  }

  lemma RestParts(xs: seq<Part>)
    requires xs != []
    ensures (forall i | 0 <= i < |xs| :: PartAt(xs, i)) <==> PartAt(xs, 0) && forall i | 0 <= i < |xs[1..]| :: PartAt(xs[1..], i)
  {
    var ys := xs[1..];
    forall i | 0 < i < |xs| ensures PartAt(xs, i) <==> PartAt(ys, i - 1) {
      assert ys[i - 1] == xs[i] && ys[i..] == xs[i + 1..];
    }
    if forall i | 0 <= i < |xs| :: PartAt(xs, i) {
      forall i | 0 <= i < |ys| ensures PartAt(ys, i) {
        assert PartAt(xs, i + 1);
      }
    }
  }

  predicate IsLetter(c: char) {
    65 <= c as int <= 90 || 97 <= c as int <= 122
  }

  /** A literal has no percent sign; a name consists of letters; a format has no closing brace; and
      behind a field without format the pattern goes on with neither a letter nor a brace. */
  predicate PartAt(xs: seq<Part>, i: nat)
    requires i < |xs|
  {
    match xs[i]
    case Literal(s) => '%' !in s
    case Field(name, fmt) =>
      && name != "" && (forall k | 0 <= k < |name| :: IsLetter(name[k]))
      && match fmt {
           case Some(f) => '}' !in f
           case None => var rest := Print(xs[i + 1..]); rest != "" ==> !IsLetter(rest[0]) && rest[0] != '{' && rest[0] != '}'
         }
  }

  /** The formatter built from a printed pattern has the items that were meant: adjacent literals
      as one text, every field as the directive of its letter with its format, a field that is
      none of the twelve as an error text; and it reports an error exactly if there is one. */
  method Build(xs: seq<Part>) returns (f: LogFormatter)
    requires forall i | 0 <= i < |xs| :: PartAt(xs, i)
    ensures fresh(f) && f.pattern == Print(xs)
    ensures f.items == ItemsOf("", xs)
    ensures f.error <==> HasUnknown(xs)
  {
    PrintableMeans(xs);
    RoundTrip(xs);
    MergedItems("", xs);
    f := new LogFormatter(Print(xs));
  }

  /** No two literals are adjacent, and none is empty. */
  predicate Normal(xs: seq<Part>) {
    forall i | 0 <= i < |xs| && xs[i].Literal? :: xs[i].s != "" && (i + 1 < |xs| ==> xs[i + 1].Field?)
  }

  /** For such lists the items are those of the parts, one by one. */
  lemma {:induction false} ItemsOneByOne(xs: seq<Part>)
    requires Normal(xs)
    ensures |ItemsOf("", xs)| == |xs|
    ensures forall i | 0 <= i < |xs| ::
              match xs[i] {
                case Literal(s) => ItemsOf("", xs)[i] == StringItem(s)
                case Field(name, fmt) =>
                  ItemsOf("", xs)[i] == if IsKnown(name) then FormatItem(name[0], match fmt { case None => "" case Some(t) => t })
                                        else StringItem("<<error_format %" + name + ">>")
              }
    decreases |xs|
  {
    if xs != [] {
      match xs[0]
      case Field(name, fmt) =>
        NormalRest(xs, 1);
        ItemsOneByOne(xs[1..]);
      case Literal(s) =>
        assert "" + s == s;
        if |xs| > 1 {
          NormalRest(xs, 2);
          ItemsOneByOne(xs[2..]);
          assert xs[1..][0] == xs[1] && xs[1..][1..] == xs[2..];
          assert ItemsOf(s, xs[1..]) == [StringItem(s)] + [FieldItem(xs[1].name, xs[1].fmt)] + ItemsOf("", xs[2..]);
        } else {
          assert xs[1..] == [];
        }
    }
  }

  lemma NormalRest(xs: seq<Part>, n: nat)
    requires Normal(xs) && n <= |xs|
    ensures Normal(xs[n..])
  {
    var ys := xs[n..];
    forall i | 0 <= i < |ys| && ys[i].Literal? ensures ys[i].s != "" && (i + 1 < |ys| ==> ys[i + 1].Field?) {
      assert xs[n + i] == ys[i];
    }
  }

  // ---------------------------------------------------------------- what does not work

  /** A format that is not closed is an error, and all of it behind the percent sign is text. */
  lemma UnclosedFormat(name: string, fmt: string)
    requires IsWord(name) && '}' !in fmt && '%' !in fmt
    ensures Parse("%" + name + "{" + fmt, 0, "") == [PatternError, Text(name + "{" + fmt)]
  {
    var p, m := "%" + name + "{" + fmt, |name| + 1;
    assert forall k | 1 <= k < m :: p[k] == name[k - 1];
    assert p[m] == '{' && forall k | m < k < |p| :: p[k] == fmt[k - m - 1];
    ScanWord(p, 0, 1, m);
    NeverClosed(p, p[1..m], m, m + 1);
    UnclosedStep(p, 0, "");
    assert p[1..|p|] == name + "{" + fmt && '%' !in p[1..|p|];
    ParseText(p, 1, |p|, "");
    assert "" + p[1..|p|] == name + "{" + fmt;
  }

  lemma {:induction false} NeverClosed(p: string, name: string, begin: nat, n: nat)
    requires begin < n <= |p| && forall k | n <= k < |p| :: p[k] != '}'
    ensures ScanFmt(p, name, begin, n).Unclosed?
    decreases |p| - n
  {
    if n < |p| {
      NeverClosed(p, name, begin, n + 1);
    }
  }

  lemma {:induction false} ScanNameLength(p: string, i: nat, n: nat)
    requires i < n <= |p|
    ensures ScanName(p, i, n).Found? ==> |ScanName(p, i, n).name| >= n - i - 1
    decreases |p| - n
  {
    if n < |p| && p[n] == '{' {
      ScanFmtName(p, p[i + 1..n], n, n + 1);
    } else if n < |p| && (IsAlpha(p[n]) || p[n] == '}') {
      ScanNameLength(p, i, n + 1);
    }
  }

  lemma {:induction false} ScanFmtName(p: string, name: string, begin: nat, n: nat)
    requires begin < n <= |p|
    ensures var r := ScanFmt(p, name, begin, n); r.Found? ==> r.name == name && r.next > n
    decreases |p| - n
  {
    if n < |p| && p[n] != '}' {
      ScanFmtName(p, name, begin, n + 1);
    }
  }

  /** Text behind a directive without format comes back exactly if it begins with neither a
      letter nor a brace. */
  lemma TextAfterField(name: string, s: string)
    requires IsWord(name) && s != "" && '%' !in s
    ensures var xs := [Field(name, None), Literal(s)];
            Parse(Print(xs), 0, "") == Merged("", xs) <==> EndsField(s)
  {
    var xs := [Field(name, None), Literal(s)];
    var p, m := "%" + name + s, |name| + 1;
    assert xs[1..] == [Literal(s)] && xs[1..][1..] == [];
    assert Print([Literal(s)]) == s;
    assert Print(xs) == p;
    assert Merged("", [Literal(s)]) == Merged(s, []) == [Text(s)] by {
      assert "" + s == s;
    }
    assert Merged("", xs) == [Directive(name, "")] + [Text(s)];
    if EndsField(s) {
      assert Printable([Literal(s)]);
      RoundTrip(xs);
    } else {
      NotReturned(p, name, s);
    }
  }

  /** The first thing the scanner finds in a pattern that begins with a directive. */
  lemma FirstRaw(p: string)
    requires |p| > 1 && p[0] == '%' && p[1] != '%'
    ensures var r := ScanName(p, 0, 1);
            Parse(p, 0, "") == if r.Found? then [Directive(r.name, r.fmt)] + Parse(p, r.next, "") else [PatternError] + Parse(p, 1, "")
  {
  }

  lemma NotReturned(p: string, name: string, s: string)
    requires IsWord(name) && s != "" && '%' !in s && !EndsField(s)
    requires p == "%" + name + s
    ensures Parse(p, 0, "") != [Directive(name, ""), Text(s)]
  {
    var m, want := |name| + 1, [Directive(name, ""), Text(s)];
    assert forall k | 1 <= k < m :: p[k] == name[k - 1];
    assert p[1..m] == name && p[m] == s[0];
    ScanWord(p, 0, 1, m);
    FirstRaw(p);
    var r := ScanName(p, 0, 1);
    if r.Unclosed? {
      assert Parse(p, 0, "")[0] == PatternError != want[0];
    } else if s[0] == '{' {
      ScanFmtName(p, name, m, m + 1);
      var rest := p[r.next..];
      assert rest == s[r.next - m..] && |rest| < |s|;
      assert '%' !in p[r.next..|p|] && p[r.next..|p|] == rest;
      ParseText(p, r.next, |p|, "");
      assert "" + rest == rest;
      assert Parse(p, 0, "")[1..] == Flush(rest) != [Text(s)] == want[1..];
    } else {
      ScanNameLength(p, 0, m + 1);
      assert Parse(p, 0, "")[0] == Directive(r.name, r.fmt) != want[0];
    }
  }

  lemma {:induction false} ShiftFmt(a: string, p: string, name: string, begin: nat, n: nat)
    requires begin < n <= |p|
    ensures var r := ScanFmt(p, name, begin, n);
            ScanFmt(a + p, name, |a| + begin, |a| + n) == if r.Found? then r.(next := |a| + r.next) else Unclosed
    decreases |p| - n
  {
    if n < |p| {
      assert (a + p)[|a| + n] == p[n];
      assert (a + p)[|a| + begin + 1..|a| + n] == p[begin + 1..n];
      if p[n] != '}' {
        ShiftFmt(a, p, name, begin, n + 1);
      }
    }
  }

  lemma {:induction false} ShiftName(a: string, p: string, i: nat, n: nat)
    requires i < n <= |p|
    ensures var r := ScanName(p, i, n);
            ScanName(a + p, |a| + i, |a| + n) == if r.Found? then r.(next := |a| + r.next) else Unclosed
    decreases |p| - n
  {
    assert (a + p)[|a| + i + 1..|a| + n] == p[i + 1..n];
    if n < |p| {
      assert (a + p)[|a| + n] == p[n];
      if p[n] == '{' {
        ShiftFmt(a, p, p[i + 1..n], n, n + 1);
      } else if IsAlpha(p[n]) || p[n] == '}' {
        ShiftName(a, p, i, n + 1);
      }
    } else {
      assert (a + p)[|a| + i + 1..] == p[i + 1..];
    }
  }

  /** What stands before the point of the scan has no say any more. */
  lemma {:induction false} ParseShift(a: string, p: string, i: nat, nstr: string)
    requires i <= |p|
    ensures Parse(a + p, |a| + i, nstr) == Parse(p, i, nstr)
    decreases |p| - i, 1
  {
    if i < |p| {
      assert (a + p)[|a| + i] == p[i];
      assert i + 1 < |p| ==> (a + p)[|a| + i + 1] == p[i + 1];
      if p[i] != '%' {
        ParseShift(a, p, i + 1, nstr + [p[i]]);
        assert |a| + i + 1 == |a| + (i + 1);
      } else if i + 1 < |p| && p[i + 1] == '%' {
        ParseShift(a, p, i + 1, nstr + "%");
        assert |a| + i + 1 == |a| + (i + 1);
      } else {
        ParseShiftDirective(a, p, i, nstr);
      }
    }
  }

  lemma {:induction false} ParseShiftDirective(a: string, p: string, i: nat, nstr: string)
    requires i < |p| && p[i] == '%' && !(i + 1 < |p| && p[i + 1] == '%')
    ensures Parse(a + p, |a| + i, nstr) == Parse(p, i, nstr)
    decreases |p| - i, 0
  {
    var q, j, r := a + p, |a| + i, ScanName(p, i, i + 1);
    assert q[j] == p[i] && (j + 1 < |q| ==> q[j + 1] == p[i + 1]);
    ShiftName(a, p, i, i + 1);
    if r.Found? {
      ParseShift(a, p, r.next, "");
      DirectiveStep(p, i, nstr, r);
      DirectiveStep(q, j, nstr, r.(next := |a| + r.next));
    } else {
      ParseShift(a, p, i + 1, nstr);
      UnclosedStep(p, i, nstr);
      UnclosedStep(q, j, nstr);
    }
  }

  lemma UnclosedStep(p: string, i: nat, nstr: string)
    requires i < |p| && p[i] == '%' && !(i + 1 < |p| && p[i + 1] == '%') && ScanName(p, i, i + 1).Unclosed?
    ensures Parse(p, i, nstr) == [PatternError] + Parse(p, i + 1, nstr)
  {
  }

  /** A doubled percent sign is not an escaped one: one sign goes to the text, and the second
      is scanned again as the beginning of what follows, whatever that is. */
  lemma DoublePercent(rest: string, nstr: string)
    ensures Parse("%%" + rest, 0, nstr) == Parse("%" + rest, 0, nstr + "%")
  {
    assert "%" + ("%" + rest) == "%%" + rest;
    ParseShift("%", "%" + rest, 0, nstr + "%");
  }

  lemma PlainDirective(name: string, rest: string, nstr: string)
    requires IsWord(name) && EndsField(rest)
    ensures Parse("%" + name + rest, 0, nstr) == Flush(nstr) + [Directive(name, "")] + Parse(rest, 0, "")
  {
    var p := "%" + name + rest;
    FieldScanned("", name, None, rest);
    assert "" + PrintPart(Field(name, None)) + rest == p;
    DirectiveStep(p, 0, nstr, ScanName(p, 0, 1));
    ParseShift("%" + name, rest, 0, "");
  }

  /** So a word behind it is taken for a directive. */
  lemma DoublePercentWord(name: string, rest: string)
    requires IsWord(name) && EndsField(rest)
    ensures Parse("%%" + (name + rest), 0, "") == [Text("%"), Directive(name, "")] + Parse(rest, 0, "")
  {
    DoublePercent(name + rest, "");
    PlainDirective(name, rest, "%");
    assert "" + "%" == "%" && "%" + (name + rest) == "%" + name + rest;
    assert Flush("%") + [Directive(name, "")] == [Text("%"), Directive(name, "")];
  }
}
