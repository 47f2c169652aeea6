/** `ParseCsv`: the lines of the input file become rows of fields, without the header. */
module Csv {

  /** Tokenises every line, in file order, and drops the first (header) row.
      Erasing the first row of an empty table is undefined, so a file must hold
      at least one line. */
  method ParseCsv(lines: seq<string>, tokenize: string -> seq<string>) returns (cells: seq<seq<string>>)
    requires |lines| >= 1
    ensures |cells| == |lines| - 1
    ensures forall i :: 0 <= i < |cells| ==> cells[i] == tokenize(lines[i + 1])
  {
    var all: seq<seq<string>> := [];
    var k := 0;
    while k < |lines|
      invariant 0 <= k <= |lines|
      invariant |all| == k
      invariant forall i :: 0 <= i < k ==> all[i] == tokenize(lines[i])
    {
      all := all + [tokenize(lines[k])];
      k := k + 1;
    }
    cells := all[1..];
  }

  // ---------------------------------------------------------------------------
  // Comma splitting
  // ---------------------------------------------------------------------------

  predicate NoComma(s: string) {
    forall i :: 0 <= i < |s| ==> s[i] != ','
  }

  function CommaCount(s: string): nat {
    if |s| == 0 then 0 else (if s[0] == ',' then 1 else 0) + CommaCount(s[1..])
  }

  /** The text between the commas of `s`, including empty pieces at either end. */
  function Pieces(s: string): (pieces: seq<string>)
    ensures |pieces| >= 1
  {
    if |s| == 0 then [""]
    else
      var rest := Pieces(s[1..]);
      if s[0] == ',' then [""] + rest else [[s[0]] + rest[0]] + rest[1..]
  }

  /** The pieces written back with a comma between each pair. */
  function JoinWithComma(pieces: seq<string>): string
    requires |pieces| >= 1
  {
    if |pieces| == 1 then pieces[0] else pieces[0] + "," + JoinWithComma(pieces[1..])
  }

  /** The tokeniser of `boost::escaped_list_separator` on a line holding no quote
      or backslash: the pieces between commas, and no field at all for an empty line. */
  function SplitOnComma(line: string): seq<string> {
    if line == [] then [] else Pieces(line)
  }

  /** Splitting keeps all text, loses only the commas, and yields one more field than commas. */
  lemma PiecesJoin(s: string)
    ensures JoinWithComma(Pieces(s)) == s
    ensures |Pieces(s)| == CommaCount(s) + 1
    ensures forall i :: 0 <= i < |Pieces(s)| ==> NoComma(Pieces(s)[i])
  {
    PiecesRejoin(s);
    PiecesCount(s);
    PiecesCommaFree(s);
  }

  lemma {:induction false} PiecesRejoin(s: string)
    ensures JoinWithComma(Pieces(s)) == s
  {
    if |s| > 0 {
      PiecesRejoin(s[1..]);
      var rest := Pieces(s[1..]);
      if s[0] == ',' {
        assert Pieces(s)[1..] == rest;
        assert s == [','] + s[1..];
      } else {
        assert Pieces(s)[1..] == rest[1..];
        if |rest| == 1 {
          assert s == [s[0]] + rest[0];
        } else {
          assert JoinWithComma(rest) == rest[0] + "," + JoinWithComma(rest[1..]);
          assert s == [s[0]] + rest[0] + "," + JoinWithComma(rest[1..]);
        }
      }
    }
  }

  lemma {:induction false} PiecesCount(s: string)
    ensures |Pieces(s)| == CommaCount(s) + 1
  {
    if |s| > 0 {
      PiecesCount(s[1..]);
    }
  }

  lemma {:induction false} PiecesCommaFree(s: string)
    ensures forall i :: 0 <= i < |Pieces(s)| ==> NoComma(Pieces(s)[i])
  {
    if |s| > 0 {
      PiecesCommaFree(s[1..]);
      var rest := Pieces(s[1..]);
      var p := Pieces(s);
      if s[0] == ',' {
        assert p[1..] == rest;
      } else {
        assert p[1..] == rest[1..];
        assert NoComma(p[0]);
      }
    }
  }

  /** Pieces of a comma-free prefix followed by a comma. */
  lemma {:induction false} PiecesAfterField(f: string, t: string)
    requires NoComma(f)
    ensures Pieces(f + "," + t) == [f] + Pieces(t)
    ensures Pieces(f) == [f]
  {
    if |f| > 0 {
      PiecesAfterField(f[1..], t);
      assert (f + "," + t)[1..] == f[1..] + "," + t;
      assert f == [f[0]] + f[1..];
    } else {
      assert f + "," + t == [','] + t;
    }
  }

  /** Joining comma-free fields and splitting the line again gives the fields back. */
  lemma {:induction false} JoinPieces(fields: seq<string>)
    requires |fields| >= 1
    requires forall i :: 0 <= i < |fields| ==> NoComma(fields[i])
    ensures Pieces(JoinWithComma(fields)) == fields
  {
    PiecesAfterField(fields[0], "");
    if |fields| > 1 {
      JoinPieces(fields[1..]);
      PiecesAfterField(fields[0], JoinWithComma(fields[1..]));
    }
  }

  /** A non-empty line splits into exactly two fields precisely when it holds one comma. */
  lemma TwoFieldsOneComma(line: string)
    requires line != []
    ensures |SplitOnComma(line)| == 2 <==> CommaCount(line) == 1
  {
    PiecesJoin(line);
  }
}
