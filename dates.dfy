/** The date rearrangement of index.js: a CSV date `DD/MM/YYYY hh:mm` becomes the stored
    `YYYY-MM-DD 00:00:00`, by splitting on the space, then on `/`, and reordering the fields. */
module Dates {

  /** JavaScript's `s.split(sep)` for a one-character separator: the pieces between separators,
      in order, empty ones included; "" splits into [""]. */
  function Split(s: string, sep: char): (parts: seq<string>)
    ensures |parts| >= 1
    ensures forall i :: 0 <= i < |parts| ==> sep !in parts[i]
  {
    if s == [] then [""]
    else
      var rest := Split(s[1..], sep);
      if s[0] == sep then [""] + rest else [[s[0]] + rest[0]] + rest[1..]
  }

  /** `parts.join(sep)`, the inverse of `Split`. */
  function Join(parts: seq<string>, sep: char): (r: string)
    requires |parts| >= 1
  {
    if |parts| == 1 then parts[0] else parts[0] + [sep] + Join(parts[1..], sep)
  }

  /** Joining the pieces back gives the original string. */
  lemma {:induction false} JoinSplit(s: string, sep: char)
    ensures Join(Split(s, sep), sep) == s
  {
    if s != [] {
      JoinSplit(s[1..], sep);
      var rest := Split(s[1..], sep);
      if s[0] == sep {
        assert Split(s, sep)[1..] == rest;
      } else {
        var parts := Split(s, sep);
        if |rest| == 1 {
          assert parts == [[s[0]] + rest[0]];
        } else {
          assert parts[1..] == rest[1..];
          assert Join(rest, sep) == rest[0] + [sep] + Join(rest[1..], sep);
        }
      }
    }
  }

  lemma {:induction false} SplitNoSeparator(a: string, sep: char)
    requires sep !in a
    ensures Split(a, sep) == [a]
  {
    if a != [] {
      assert a[0] != sep;
      SplitNoSeparator(a[1..], sep);
      assert [a[0]] + a[1..] == a;
    }
  }

  lemma {:induction false} SplitAfterPrefix(a: string, b: string, sep: char)
    requires sep !in a
    ensures Split(a + [sep] + b, sep) == [a] + Split(b, sep)
  {
    if a == [] {
      assert (a + [sep] + b)[1..] == b;
    } else {
      assert (a + [sep] + b)[1..] == a[1..] + [sep] + b;
      SplitAfterPrefix(a[1..], b, sep);
      assert [a[0]] + a[1..] == a;
    }
  }

  /** Splitting a join gives the pieces back when none contains the separator. */
  lemma {:induction false} SplitJoin(parts: seq<string>, sep: char)
    requires |parts| >= 1 && forall i :: 0 <= i < |parts| ==> sep !in parts[i]
    ensures Split(Join(parts, sep), sep) == parts
  {
    if |parts| == 1 {
      SplitNoSeparator(parts[0], sep);
    } else {
      SplitJoin(parts[1..], sep);
      SplitAfterPrefix(parts[0], Join(parts[1..], sep), sep);
      assert [parts[0]] + parts[1..] == parts;
    }
  }

  lemma JoinThree(a: string, b: string, c: string, sep: char)
    ensures Join([a, b, c], sep) == a + [sep] + b + [sep] + c
  {
    assert [a, b, c][1..] == [b, c];
    assert [b, c][1..] == [c];
    assert Join([c], sep) == c;
    assert Join([b, c], sep) == b + [sep] + c;
    assert Join([a, b, c], sep) == a + [sep] + (b + [sep] + c);
  }

  /** `campos[k]`; past the end JavaScript reads `undefined`, which concatenation spells out. */
  function Campo(campos: seq<string>, k: nat): (r: string)
  {
    if k < |campos| then campos[k] else "undefined"
  }

  /** `campos = fecha.split(" ")[0].split("/")`, then `campos[2]+"-"+campos[1]+"-"+campos[0]+" 00:00:00"`. */
  function ConvertirFecha(fecha: string): (r: string)
    ensures |r| >= 9 && r[|r| - 9..] == " 00:00:00"
  {
    var campos := Split(Split(fecha, ' ')[0], '/');
    Campo(campos, 2) + "-" + Campo(campos, 1) + "-" + Campo(campos, 0) + " 00:00:00"
  }

  predicate Digits(s: string)
  {
    forall i :: 0 <= i < |s| ==> '0' <= s[i] <= '9'
  }

  /** A well-formed CSV date, with or without its time, is reordered into `YYYY-MM-DD 00:00:00`. */
  lemma ConvertirFechaReorders(dia: string, mes: string, anio: string, hora: string)
    requires Digits(dia) && Digits(mes) && Digits(anio)
    ensures ConvertirFecha(dia + "/" + mes + "/" + anio + " " + hora) == anio + "-" + mes + "-" + dia + " 00:00:00"
    ensures ConvertirFecha(dia + "/" + mes + "/" + anio) == anio + "-" + mes + "-" + dia + " 00:00:00"
  {
    var dma := dia + "/" + mes + "/" + anio;
    assert ' ' !in dma by {
      assert forall i :: 0 <= i < |dma| ==> dma[i] == '/' || '0' <= dma[i] <= '9';
    }
    SplitAfterPrefix(dma, hora, ' ');
    assert dma + " " + hora == dma + [' '] + hora;
    SplitNoSeparator(dma, ' ');
    JoinThree(dia, mes, anio, '/');
    SplitJoin([dia, mes, anio], '/');
  }

  /** Two well-formed CSV dates are converted to the same string only when their day, month and
      year fields agree. This is about strings only: the model's "already has this date" checks
      compare the stored strings, while Mongoose casts both sides to a Date first. */
  lemma ConvertirFechaInjective(d1: string, m1: string, y1: string, h1: string,
                                d2: string, m2: string, y2: string, h2: string)
    requires Digits(d1) && Digits(m1) && Digits(y1) && Digits(d2) && Digits(m2) && Digits(y2)
    requires ConvertirFecha(d1 + "/" + m1 + "/" + y1 + " " + h1) == ConvertirFecha(d2 + "/" + m2 + "/" + y2 + " " + h2)
    ensures d1 == d2 && m1 == m2 && y1 == y2
  {
    ConvertirFechaReorders(d1, m1, y1, h1);
    ConvertirFechaReorders(d2, m2, y2, h2);
    var t := " 00:00:00";
    CanonicalSplits(d1, m1, y1);
    CanonicalSplits(d2, m2, y2);
    assert d1 + t == d2 + t;
    assert d1 == (d1 + t)[..|d1|];
    assert d2 == (d2 + t)[..|d2|];
  }

  lemma CanonicalSplits(d: string, m: string, y: string)
    requires Digits(d) && Digits(m) && Digits(y)
    ensures Split(y + "-" + m + "-" + d + " 00:00:00", '-') == [y, m, d + " 00:00:00"]
  {
    var t := d + " 00:00:00";
    assert '-' !in t by {
      assert forall i :: 0 <= i < |t| ==> t[i] == ' ' || t[i] == ':' || '0' <= t[i] <= '9';
    }
    JoinThree(y, m, t, '-');
    assert y + "-" + m + "-" + d + " 00:00:00" == y + ['-'] + m + ['-'] + t;
    SplitJoin([y, m, t], '-');
  }
}
