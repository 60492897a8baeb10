/** The java.lang.String operations the records and services rely on: String.join,
    String.split with a one-character separator, toLowerCase, equalsIgnoreCase and contains. */
module Text {

  /** No field contains the separator. */
  predicate NoSeparator(fields: seq<string>, sep: char)
  {
    forall i :: 0 <= i < |fields| ==> sep !in fields[i]
  }

  /** String.join(sep, fields). */
  function Join(fields: seq<string>, sep: char): (s: string)
    ensures forall c :: c in s && c != sep ==> exists i :: 0 <= i < |fields| && c in fields[i]
  {
    if |fields| == 0 then ""
    else if |fields| == 1 then fields[0]
    else
      var rest := Join(fields[1..], sep);
      assert forall c :: c in rest && c != sep ==> exists i :: 1 <= i < |fields| && c in fields[i] by {
        forall c | c in rest && c != sep ensures exists i :: 1 <= i < |fields| && c in fields[i] {
          var i :| 0 <= i < |fields[1..]| && c in fields[1..][i];
          assert c in fields[i + 1];
        }
      }
      fields[0] + [sep] + rest
  }

  /** Every piece between separators, empty pieces included. */
  function SplitAll(s: string, sep: char): (pieces: seq<string>)
    ensures |pieces| >= 1
  {
    if s == [] then [""]
    else
      var rest := SplitAll(s[1..], sep);
      if s[0] == sep then [""] + rest else [[s[0]] + rest[0]] + rest[1..]
  }

  /** Drops the empty pieces at the end. */
  function DropTrailingEmpty(pieces: seq<string>): (r: seq<string>)
    ensures |r| <= |pieces|
    ensures r == pieces[..|r|]
  {
    if pieces == [] then []
    else if pieces[|pieces| - 1] == "" then DropTrailingEmpty(pieces[..|pieces| - 1])
    else pieces
  }

  /** String.split(sep) with no limit: a string without the separator splits into itself;
      otherwise the pieces, with trailing empty pieces removed. */
  function JavaSplit(s: string, sep: char): seq<string>
  {
    if sep !in s then [s] else DropTrailingEmpty(SplitAll(s, sep))
  }

  lemma {:induction false} SplitAllNoSeparator(a: string, sep: char)
    requires sep !in a
    ensures SplitAll(a, sep) == [a]
  {
    if a != [] {
      SplitAllNoSeparator(a[1..], sep);
      assert [a[0]] + a[1..] == a;
    }
  }

  lemma {:induction false} SplitAllPrefix(a: string, sep: char, b: string)
    requires sep !in a
    ensures SplitAll(a + [sep] + b, sep) == [a] + SplitAll(b, sep)
  {
    if a == [] {
      assert a + [sep] + b == [sep] + b;
      assert ([sep] + b)[1..] == b;
    } else {
      var s := a + [sep] + b;
      assert s[0] == a[0] && s[1..] == a[1..] + [sep] + b;
      SplitAllPrefix(a[1..], sep, b);
      assert [a[0]] + a[1..] == a;
    }
  }

  /** Splitting a join recovers every field, empty ones included. */
  lemma {:induction false} SplitAllJoin(fields: seq<string>, sep: char)
    requires |fields| >= 1
    requires NoSeparator(fields, sep)
    ensures SplitAll(Join(fields, sep), sep) == fields
  {
    if |fields| == 1 {
      SplitAllNoSeparator(fields[0], sep);
    } else {
      SplitAllJoin(fields[1..], sep);
      SplitAllPrefix(fields[0], sep, Join(fields[1..], sep));
      assert [fields[0]] + fields[1..] == fields;
    }
  }

  /** String.split inverts String.join when no field holds the separator and the last field is
      not empty (split would drop it). */
  lemma JavaSplitJoin(fields: seq<string>, sep: char)
    requires |fields| >= 1
    requires NoSeparator(fields, sep)
    requires fields[|fields| - 1] != ""
    ensures JavaSplit(Join(fields, sep), sep) == fields
  {
    var s := Join(fields, sep);
    if |fields| == 1 {
      assert s == fields[0];
    } else {
      assert s == fields[0] + [sep] + Join(fields[1..], sep);
      assert s[|fields[0]|] == sep;
      SplitAllJoin(fields, sep);
    }
  }

  /** A join of a non-empty list of non-empty strings is not empty. */
  lemma JoinNonEmpty(fields: seq<string>, sep: char)
    requires |fields| >= 1 && fields[0] != ""
    ensures Join(fields, sep) != ""
  {
  }

  /** Character.toLowerCase restricted to ASCII letters. */
  function LowerChar(c: char): char
  {
    if 'A' <= c <= 'Z' then (c as int + 32) as char else c
  }

  /** String.toLowerCase (ASCII letters only). */
  function Lower(s: string): (r: string)
    ensures |r| == |s|
    ensures forall i :: 0 <= i < |s| ==> r[i] == LowerChar(s[i])
  {
    seq(|s|, i requires 0 <= i < |s| => LowerChar(s[i]))
  }

  /** String.equalsIgnoreCase (ASCII letters only). */
  predicate EqualsIgnoreCase(a: string, b: string)
  {
    Lower(a) == Lower(b)
  }

  /** String.contains: t is a prefix of s or of one of its suffixes. */
  predicate Contains(s: string, t: string)
  {
    t <= s || (s != [] && Contains(s[1..], t))
  }

  /** equalsIgnoreCase is reflexive and symmetric, and exact equality implies it. */
  lemma EqualsIgnoreCaseProperties(a: string, b: string)
    ensures EqualsIgnoreCase(a, a)
    ensures EqualsIgnoreCase(a, b) == EqualsIgnoreCase(b, a)
    ensures a == b ==> EqualsIgnoreCase(a, b)
  {
  }

  /** equalsIgnoreCase is strictly weaker than equality: "Admin" and "admin" are the same
      name ignoring case but not the same string. */
  lemma EqualsIgnoreCaseIsCoarser()
    ensures EqualsIgnoreCase("Admin", "admin") && "Admin" != "admin"
  {
    assert Lower("Admin") == "admin";
    assert Lower("admin") == "admin";
  }
}
