/**
 * The common `Formatter` of the tools: output file names made from a pattern with
 * `str.format` fields named by `strftime` codes, and the base `write` and `close`.
 */
module Formatting {
  import opened Wrappers
  import opened Text
  import opened Decimal
  import opened Calendar
  import opened Datasets

  /** Why `str.format` raises, for the patterns this model covers. */
  datatype FormatError =
    | MissingKey(name: string)        // KeyError: the field names no substitution
    | SingleOpenBrace                 // ValueError: a `{` at the very end
    | SingleCloseBrace                // ValueError: a `}` that is not `}}`
    | UnclosedField                   // ValueError: a field without its closing `}`
    | PositionalField(name: string)   // IndexError: an empty or numeric field, and no positional arguments
    | Unsupported(name: string)       // a field with a nested brace, conversion, spec, attribute or index

  /** The text of the exception Python raises. */
  function Message(e: FormatError): string {
    match e
    case MissingKey(name) => "KeyError: '" + name + "'"
    case SingleOpenBrace => "ValueError: Single '{' encountered in format string"
    case SingleCloseBrace => "ValueError: Single '}' encountered in format string"
    case UnclosedField => "ValueError: expected '}' before end of string"
    case PositionalField(name) => "IndexError: Replacement index " + (if name == [] then "0" else name)
                                  + " out of range for positional args tuple"
    case Unsupported(name) => "unsupported field: " + name
  }

  predicate IsBrace(c: char) {
    c == '{' || c == '}'
  }

  /** Text without braces, which `str.format` copies as it is. */
  predicate NoBraces(s: string) {
    forall i :: 0 <= i < |s| ==> !IsBrace(s[i])
  }

  /** The characters that start a conversion, a format spec, an attribute or an index. */
  predicate IsFieldSyntax(c: char) {
    c == '{' || c == ':' || c == '!' || c == '.' || c == '['
  }

  /** A field name that is a plain name: no brace and no conversion, spec, attribute or index. */
  predicate PlainName(name: string) {
    forall i :: 0 <= i < |name| ==> !IsFieldSyntax(name[i]) && name[i] != '}'
  }

  /** The length of the text before the first `}` (the whole text when there is none). */
  function FieldEnd(s: string): (r: nat)
    ensures r <= |s|
    ensures forall i :: 0 <= i < r ==> s[i] != '}'
    ensures r < |s| ==> s[r] == '}'
  {
    if s == [] || s[0] == '}' then 0 else 1 + FieldEnd(s[1..])
  }

  /** A text put in front of a formatted result; an error stays the error. */
  function Prepend(s: string, r: Result<string, FormatError>): (p: Result<string, FormatError>)
    ensures p.Success? <==> r.Success?
    ensures p.Success? ==> p.value == s + r.value
    ensures p.Failure? ==> p == r
  {
    if r.Success? then Success(s + r.value) else r
  }

  /** Putting two texts in front is putting their concatenation in front. */
  lemma PrependTwice(x: string, y: string, r: Result<string, FormatError>)
    ensures Prepend(x, Prepend(y, r)) == Prepend(x + y, r)
  {
    if r.Success? {
      assert x + (y + r.value) == (x + y) + r.value;
    }
  }

  /**
   * `pattern.format(**subs)` from left to right: `{{` and `}}` stand for one brace, a
   * field `{name}` is replaced by `subs[name]`, other text is copied; the first
   * malformed or unknown field raises.
   */
  function Format(pattern: string, subs: map<string, string>): Result<string, FormatError>
    decreases |pattern|
  {
    if pattern == [] then Success("")
    else if pattern[0] == '{' then
      if |pattern| == 1 then Failure(SingleOpenBrace)
      else if pattern[1] == '{' then Prepend("{", Format(pattern[2..], subs))
      else
        var j := FieldEnd(pattern[1..]);
        var name := pattern[1..1 + j];
        if 1 + j == |pattern| then Failure(UnclosedField)
        else if !PlainName(name) then Failure(Unsupported(name))
        else if name == [] || AllDigits(name) then Failure(PositionalField(name))
        else if name !in subs then Failure(MissingKey(name))
        else Prepend(subs[name], Format(pattern[2 + j..], subs))
    else if pattern[0] == '}' then
      if |pattern| >= 2 && pattern[1] == '}' then Prepend("}", Format(pattern[2..], subs))
      else Failure(SingleCloseBrace)
    else Prepend([pattern[0]], Format(pattern[1..], subs))
  }

  /** Text outside fields is copied unchanged: a pattern without braces formats to itself. */
  lemma {:induction false} FormatLiteral(s: string, subs: map<string, string>)
    requires NoBraces(s)
    ensures Format(s, subs) == Success(s)
    decreases |s|
  {
    if s != [] {
      assert !IsBrace(s[0]);
      FormatLiteral(s[1..], subs);
      assert [s[0]] + s[1..] == s;
    }
  }

  /** Literal text in front of the rest of a pattern is copied in front of its result. */
  lemma {:induction false} FormatAfterLiteral(a: string, b: string, subs: map<string, string>)
    requires NoBraces(a)
    ensures Format(a + b, subs) == Prepend(a, Format(b, subs))
    decreases |a|
  {
    if a == [] {
      assert a + b == b;
      if Format(b, subs).Success? {
        assert a + Format(b, subs).value == Format(b, subs).value;
      }
    } else {
      assert !IsBrace(a[0]);
      assert (a + b)[0] == a[0];
      assert (a + b)[1..] == a[1..] + b;
      FormatAfterLiteral(a[1..], b, subs);
      PrependTwice([a[0]], a[1..], Format(b, subs));
      assert [a[0]] + a[1..] == a;
    }
  }

  /** A field that is a plain, non-numeric name is replaced by its substitution. */
  lemma FormatField(name: string, rest: string, subs: map<string, string>)
    requires name != [] && PlainName(name) && !AllDigits(name)
    requires name in subs
    ensures Format("{" + name + "}" + rest, subs) == Prepend(subs[name], Format(rest, subs))
  {
    var p := "{" + name + "}" + rest;
    FieldEndOfName(name, rest);
    assert p[1..] == name + "}" + rest;
    assert p[1..1 + |name|] == name;
    assert p[2 + |name|..] == rest;
  }

  /** A field that is a plain, non-numeric name without a substitution raises `KeyError` for it. */
  lemma FormatUnknownField(name: string, rest: string, subs: map<string, string>)
    requires name != [] && PlainName(name) && !AllDigits(name)
    requires name !in subs
    ensures Format("{" + name + "}" + rest, subs) == Failure(MissingKey(name))
  {
    var p := "{" + name + "}" + rest;
    FieldEndOfName(name, rest);
    assert p[1..] == name + "}" + rest;
    assert p[1..1 + |name|] == name;
  }

  /** The field of a plain name ends at the `}` right after it. */
  lemma FieldEndOfName(name: string, rest: string)
    requires PlainName(name)
    ensures FieldEnd(name + "}" + rest) == |name|
  {
    var s := name + "}" + rest;
    var r := FieldEnd(s);
    assert s[|name|] == '}';
    forall i | 0 <= i < |name| ensures s[i] != '}' {
      assert s[i] == name[i];
    }
  }

  /** The `strftime` codes the file name patterns can use. */
  const Codes: set<string> := {"y", "Y", "m", "d", "H", "M", "S"}

  /**
   * `timestamp.strftime('%' + code)` for the seven codes: the year in two and in four
   * digits, and the month, day, hour, minute and second in two zero-padded digits.
   */
  function Strftime(t: DateTime, code: char): string {
    if code == 'y' then PadInt(t.year % 100, 2)
    else if code == 'Y' then PadInt(t.year, 4)
    else if code == 'm' then PadInt(t.month, 2)
    else if code == 'd' then PadInt(t.day, 2)
    else if code == 'H' then PadInt(t.hour, 2)
    else if code == 'M' then PadInt(t.minute, 2)
    else PadInt(t.second, 2)
  }

  /** `dict((f, timestamp.strftime('%' + f)) for f in 'yYmdHMS')`. */
  function Subs(t: DateTime): map<string, string> {
    map f | f in Codes && f != [] :: Strftime(t, f[0])
  }

  /** The seven codes and nothing else have a substitution, which is their `strftime`. */
  lemma SubsLookup(t: DateTime, name: string)
    ensures name in Subs(t) <==> name in Codes
    ensures name in Codes ==> Subs(t)[name] == Strftime(t, name[0])
  {
  }

  /** Each of the seven codes is a plain, non-numeric field name of one character. */
  lemma CodeIsName(code: string)
    requires code in Codes
    ensures |code| == 1 && PlainName(code) && !AllDigits(code)
  {
    assert |code| == 1 && !('0' <= code[0] <= '9');
  }

  /** A number below 100 in two zero-padded digits, which read back as the number. */
  lemma TwoDigits(n: int)
    requires 0 <= n < 100
    ensures |PadInt(n, 2)| == 2 && AllDigits(PadInt(n, 2)) && ParseDigits(PadInt(n, 2)) == n
  {
    assert Pow10(2) == 100;
    ZeroPadSpec(n, 2);
  }

  /** A four-digit year in four digits, which read back as the year. */
  lemma FourDigits(n: int)
    requires 1000 <= n <= MaxYear
    ensures |PadInt(n, 4)| == 4 && AllDigits(PadInt(n, 4)) && ParseDigits(PadInt(n, 4)) == n
  {
    assert Pow10(4) == 10000;
    ZeroPadSpec(n, 4);
  }

  /**
   * For a valid datetime with a four-digit year, `%Y` is the year in four digits, `%y`
   * its last two digits, and the other codes two zero-padded digits each; every one reads
   * back as its field.
   */
  lemma StrftimeWidths(t: DateTime)
    requires Valid(t) && 1000 <= t.year <= MaxYear
    ensures |Strftime(t, 'Y')| == 4 && AllDigits(Strftime(t, 'Y')) && ParseDigits(Strftime(t, 'Y')) == t.year
    ensures |Strftime(t, 'y')| == 2 && AllDigits(Strftime(t, 'y')) && ParseDigits(Strftime(t, 'y')) == t.year % 100
    ensures |Strftime(t, 'm')| == 2 && AllDigits(Strftime(t, 'm')) && ParseDigits(Strftime(t, 'm')) == t.month
    ensures |Strftime(t, 'd')| == 2 && AllDigits(Strftime(t, 'd')) && ParseDigits(Strftime(t, 'd')) == t.day
    ensures |Strftime(t, 'H')| == 2 && AllDigits(Strftime(t, 'H')) && ParseDigits(Strftime(t, 'H')) == t.hour
    ensures |Strftime(t, 'M')| == 2 && AllDigits(Strftime(t, 'M')) && ParseDigits(Strftime(t, 'M')) == t.minute
    ensures |Strftime(t, 'S')| == 2 && AllDigits(Strftime(t, 'S')) && ParseDigits(Strftime(t, 'S')) == t.second
  {
    FourDigits(t.year);
    TwoDigits(t.year % 100);
    TwoDigits(t.month);
    TwoDigits(t.day);
    TwoDigits(t.hour);
    TwoDigits(t.minute);
    TwoDigits(t.second);
  }

  /** A formatter's configuration: the output folder and the file name pattern. */
  datatype Formatter = Formatter(outputFolder: string, namePattern: string)

  /** `get_output_filename(timestamp)`. */
  function OutputFilename(f: Formatter, t: DateTime): Result<string, FormatError> {
    Format(f.namePattern, Subs(t))
  }

  /** A pattern without braces names every output the same, whatever the time. */
  lemma OutputFilenameFixed(f: Formatter, t: DateTime)
    requires NoBraces(f.namePattern)
    ensures OutputFilename(f, t) == Success(f.namePattern)
  {
    FormatLiteral(f.namePattern, Subs(t));
  }

  /** A field outside the seven codes raises `KeyError` with its name. */
  lemma OutputFilenameUnknownCode(f: Formatter, t: DateTime, name: string, rest: string)
    requires name != [] && PlainName(name) && !AllDigits(name)
    requires name !in Codes
    requires f.namePattern == "{" + name + "}" + rest
    ensures OutputFilename(f, t) == Failure(MissingKey(name))
  {
    SubsLookup(t, name);
    FormatUnknownField(name, rest, Subs(t));
  }

  /** A field used twice, with only literal text between, is replaced at both places. */
  lemma FormatRepeated(name: string, between: string, subs: map<string, string>)
    requires name != [] && PlainName(name) && !AllDigits(name) && name in subs
    requires NoBraces(between)
    ensures Format("{" + name + "}" + between + "{" + name + "}", subs)
            == Success(subs[name] + between + subs[name])
  {
    var second := "{" + name + "}" + "";
    assert "{" + name + "}" + between + "{" + name + "}" == "{" + name + "}" + (between + second);
    FormatField(name, between + second, subs);
    FormatAfterLiteral(between, second, subs);
    FormatField(name, "", subs);
    assert Format("", subs) == Success("");
    assert subs[name] + "" == subs[name];
    assert subs[name] + (between + subs[name]) == subs[name] + between + subs[name];
  }

  /** A code used twice is replaced by the same text at both places. */
  lemma OutputFilenameRepeated(f: Formatter, t: DateTime, code: string, between: string)
    requires code in Codes && NoBraces(between)
    requires f.namePattern == "{" + code + "}" + between + "{" + code + "}"
    ensures OutputFilename(f, t) == Success(Strftime(t, code[0]) + between + Strftime(t, code[0]))
  {
    CodeIsName(code);
    SubsLookup(t, code);
    FormatRepeated(code, between, Subs(t));
  }

  /**
   * A pattern that spells out the full timestamp, year to second, followed by a fixed
   * text; both command-line defaults have this form.
   */
  function TimestampPattern(tail: string): string {
    "{Y}{m}{d}{H}{M}{S}" + tail
  }

  /** The name such a pattern gives a datetime: its six fields, then the fixed text. */
  function TimestampName(t: DateTime, tail: string): string {
    Strftime(t, 'Y') + (Strftime(t, 'm') + (Strftime(t, 'd') + (Strftime(t, 'H')
    + (Strftime(t, 'M') + (Strftime(t, 'S') + tail)))))
  }

  /** A timestamp pattern is six fields followed by the fixed text. */
  lemma TimestampPatternParts(tail: string)
    ensures TimestampPattern(tail)
            == "{" + "Y" + "}" + ("{" + "m" + "}" + ("{" + "d" + "}" + ("{" + "H" + "}"
               + ("{" + "M" + "}" + ("{" + "S" + "}" + tail)))))
  {
    var p := TimestampPattern(tail);
    var q := "{" + "Y" + "}" + ("{" + "m" + "}" + ("{" + "d" + "}" + ("{" + "H" + "}"
             + ("{" + "M" + "}" + ("{" + "S" + "}" + tail)))));
    assert |q| == |p|;
    forall i | 0 <= i < |p| ensures p[i] == q[i] {
      if i >= 18 {
        assert p[i] == tail[i - 18];
      }
    }
  }

  /** A timestamp pattern with any substitutions for the six codes it uses. */
  lemma TimestampPatternWith(tail: string, subs: map<string, string>)
    requires NoBraces(tail)
    requires "Y" in subs && "m" in subs && "d" in subs && "H" in subs && "M" in subs && "S" in subs
    ensures Format(TimestampPattern(tail), subs)
            == Success(subs["Y"] + (subs["m"] + (subs["d"] + (subs["H"] + (subs["M"] + (subs["S"] + tail))))))
  {
    var p5 := "{" + "S" + "}" + tail;
    var p4 := "{" + "M" + "}" + p5;
    var p3 := "{" + "H" + "}" + p4;
    var p2 := "{" + "d" + "}" + p3;
    var p1 := "{" + "m" + "}" + p2;
    TimestampPatternParts(tail);
    CodeIsName("Y");
    CodeIsName("m");
    CodeIsName("d");
    CodeIsName("H");
    CodeIsName("M");
    CodeIsName("S");
    FormatLiteral(tail, subs);
    FormatField("S", tail, subs);
    assert Format(p5, subs) == Success(subs["S"] + tail);
    FormatField("M", p5, subs);
    assert Format(p4, subs) == Success(subs["M"] + (subs["S"] + tail));
    FormatField("H", p4, subs);
    assert Format(p3, subs) == Success(subs["H"] + (subs["M"] + (subs["S"] + tail)));
    FormatField("d", p3, subs);
    assert Format(p2, subs) == Success(subs["d"] + (subs["H"] + (subs["M"] + (subs["S"] + tail))));
    FormatField("m", p2, subs);
    assert Format(p1, subs) == Success(subs["m"] + (subs["d"] + (subs["H"] + (subs["M"] + (subs["S"] + tail)))));
    FormatField("Y", p1, subs);
  }

  /** A timestamp pattern names an output by its timestamp, year to second, then the fixed text. */
  lemma TimestampPatternName(f: Formatter, t: DateTime, tail: string)
    requires NoBraces(tail) && f.namePattern == TimestampPattern(tail)
    ensures OutputFilename(f, t) == Success(TimestampName(t, tail))
  {
    SubsLookup(t, "Y");
    SubsLookup(t, "m");
    SubsLookup(t, "d");
    SubsLookup(t, "H");
    SubsLookup(t, "M");
    SubsLookup(t, "S");
    TimestampPatternWith(tail, Subs(t));
  }

  /** A timestamp name starts with the first digit of the year, so it is never an absolute path. */
  lemma TimestampNameRelative(t: DateTime, tail: string)
    requires 1000 <= t.year <= MaxYear
    ensures TimestampName(t, tail) != [] && '0' <= TimestampName(t, tail)[0] <= '9'
    ensures !StartsWith(TimestampName(t, tail), "/")
  {
    FourDigits(t.year);
    var name := TimestampName(t, tail);
    assert name[0] == Strftime(t, 'Y')[0];
    assert name[..1] == [name[0]];
  }

  /** Two texts that agree, split after the same number of characters, agree part by part. */
  lemma SplitAt(a1: string, r1: string, a2: string, r2: string)
    requires |a1| == |a2| && a1 + r1 == a2 + r2
    ensures a1 == a2 && r1 == r2
  {
    assert a1 == (a1 + r1)[..|a1|];
    assert a2 == (a2 + r2)[..|a2|];
    assert r1 == (a1 + r1)[|a1|..];
    assert r2 == (a2 + r2)[|a2|..];
  }

  /**
   * Two valid datetimes with four-digit years get the same timestamp name only when they
   * are the same datetime: the name tells the year, month, day, hour, minute and second.
   */
  lemma TimestampNameInjective(t1: DateTime, t2: DateTime, tail: string)
    requires Valid(t1) && 1000 <= t1.year <= MaxYear
    requires Valid(t2) && 1000 <= t2.year <= MaxYear
    requires TimestampName(t1, tail) == TimestampName(t2, tail)
    ensures t1 == t2
  {
    StrftimeWidths(t1);
    StrftimeWidths(t2);
    var s5 := Strftime(t1, 'S') + tail;
    var s4 := Strftime(t1, 'M') + s5;
    var s3 := Strftime(t1, 'H') + s4;
    var s2 := Strftime(t1, 'd') + s3;
    var s1 := Strftime(t1, 'm') + s2;
    var u5 := Strftime(t2, 'S') + tail;
    var u4 := Strftime(t2, 'M') + u5;
    var u3 := Strftime(t2, 'H') + u4;
    var u2 := Strftime(t2, 'd') + u3;
    var u1 := Strftime(t2, 'm') + u2;
    SplitAt(Strftime(t1, 'Y'), s1, Strftime(t2, 'Y'), u1);
    SplitAt(Strftime(t1, 'm'), s2, Strftime(t2, 'm'), u2);
    SplitAt(Strftime(t1, 'd'), s3, Strftime(t2, 'd'), u3);
    SplitAt(Strftime(t1, 'H'), s4, Strftime(t2, 'H'), u4);
    SplitAt(Strftime(t1, 'M'), s5, Strftime(t2, 'M'), u5);
    SplitAt(Strftime(t1, 'S'), tail, Strftime(t2, 'S'), tail);
  }

  /** What a formatter leaves behind: a NetCDF file, or one raster per variable. */
  datatype Output =
    | NetcdfFile(path: string, data: Dataset)
    | RasterFile(path: string, variable: string, attrs: Attrs)

  /** The base `write`: it produces nothing. */
  function BaseWrite(f: Formatter, data: Dataset, variableNames: seq<string>,
                     startDt: Option<DateTime>, midDt: Option<DateTime>, endDt: Option<DateTime>,
                     originalFilename: Option<string>): (outputs: seq<Output>)
    ensures outputs == []
  {
    []
  }

  /**
   * The base `close`, which the GeoTIFF and NetCDF formatters of both tools keep as
   * it is (`pass`): it produces nothing.
   */
  function BaseClose(f: Formatter): (outputs: seq<Output>)
    ensures outputs == []
  {
    []
  }
}
