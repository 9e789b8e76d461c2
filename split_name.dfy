/**
 * `split_user_full_name`: a full name is split on single spaces; the last
 * token is the last name and the others, joined back with spaces, the first
 * name.  A name without a space is both.
 */
module SplitNames {
  import opened Wrappers
  import opened Exceptions

  /** `s.split(" ")`: the pieces between single spaces, empty pieces included; never an empty list. */
  function Split(s: string): (r: seq<string>)
    ensures |r| >= 1
    ensures forall i | 0 <= i < |r| :: ' ' !in r[i]
  {
    if s == [] then [""]
    else
      var rest := Split(s[1..]);
      if s[0] == ' ' then [""] + rest
      else [[s[0]] + rest[0]] + rest[1..]
  }

  /** `" ".join(parts)`. */
  function Join(parts: seq<string>): string
  {
    if parts == [] then ""
    else if |parts| == 1 then parts[0]
    else parts[0] + " " + Join(parts[1..])
  }

  /**
   * `split_user_full_name(user)`: `ImproperlyConfigured` without a name;
   * otherwise (first name, last name).
   */
  function SplitUserFullName(user: Option<string>): (r: Result<(string, string), Error>)
    ensures r.Err? <==> user.None?
    ensures r.Err? ==> r.error == ImproperlyConfigured
    ensures r.Ok? ==> ' ' !in r.value.1
  {
    if user.None? then Err(ImproperlyConfigured)
    else
      var tokens := Split(user.value);
      if |tokens| == 0 then Err(ImproperlyConfigured)
      else if |tokens| == 1 then Ok((tokens[0], tokens[0]))
      else Ok((Join(tokens[..|tokens| - 1]), tokens[|tokens| - 1]))
  }

  // ---------------------------------------------------------------------
  // Lemmas
  // ---------------------------------------------------------------------

  /** Joining the pieces with spaces gives the string back. */
  lemma {:induction false} JoinSplit(s: string)
    ensures Join(Split(s)) == s
  {
    if s != [] {
      JoinSplit(s[1..]);
      var rest := Split(s[1..]);
      if s[0] == ' ' {
        assert ([""] + rest)[1..] == rest;
      } else {
        assert ([[s[0]] + rest[0]] + rest[1..])[1..] == rest[1..];
        if |rest| > 1 {
          assert Join(rest) == rest[0] + " " + Join(rest[1..]);
        }
      }
    }
  }

  /** A string splits into one piece exactly when it holds no space. */
  lemma {:induction false} SplitSingle(s: string)
    ensures |Split(s)| == 1 <==> ' ' !in s
    ensures ' ' !in s ==> Split(s) == [s]
  {
    if s != [] {
      SplitSingle(s[1..]);
      assert s == [s[0]] + s[1..];
    }
  }

  /** Splitting at a space splits the two sides separately. */
  lemma {:induction false} SplitAppend(a: string, b: string)
    ensures Split(a + " " + b) == Split(a) + Split(b)
  {
    var s := a + " " + b;
    if a == [] {
      assert s[0] == ' ' && s[1..] == b;
    } else {
      assert s[0] == a[0] && s[1..] == a[1..] + " " + b;
      SplitAppend(a[1..], b);
      var left, right := Split(a[1..]), Split(b);
      var rest := Split(s[1..]);
      assert rest == left + right;
      if a[0] != ' ' {
        assert rest[0] == left[0] && rest[1..] == left[1..] + right;
        assert Split(a) == [[a[0]] + left[0]] + left[1..];
      }
    }
  }

  /** The first name joined to the last with a space is the full name whenever the name holds a space. */
  lemma SplitUserFullNameLossless(s: string)
    requires ' ' in s
    ensures SplitUserFullName(Some(s)).Ok?
    ensures SplitUserFullName(Some(s)).value.0 + " " + SplitUserFullName(Some(s)).value.1 == s
  {
    var tokens := Split(s);
    SplitSingle(s);
    JoinSplit(s);
    JoinLast(tokens);
  }

  lemma {:induction false} JoinLast(parts: seq<string>)
    requires |parts| >= 2
    ensures Join(parts) == Join(parts[..|parts| - 1]) + " " + parts[|parts| - 1]
  {
    if |parts| > 2 {
      JoinLast(parts[1..]);
      assert parts[1..][..|parts| - 2] == parts[..|parts| - 1][1..];
    }
  }

  /** A name without a space is both the first and the last name. */
  lemma SplitUserFullNameSingle(s: string)
    requires ' ' !in s
    ensures SplitUserFullName(Some(s)) == Ok((s, s))
  {
    SplitSingle(s);
  }

  /** Splitting `first + " " + last` gives back both names when the last one has no space. */
  lemma SplitUserFullNameRoundTrip(first: string, last: string)
    requires ' ' !in last
    ensures SplitUserFullName(Some(first + " " + last)) == Ok((first, last))
  {
    SplitAppend(first, last);
    SplitSingle(last);
    JoinSplit(first);
    var tokens := Split(first) + [last];
    assert tokens[..|tokens| - 1] == Split(first);
  }
}
