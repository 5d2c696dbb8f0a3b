/**
 * The query-parameter handling the accounts and donations listings share:
 * `split(':')` of the sort string, a whitelisted sort field with a default,
 * the sort order, the page offset and the page count.
 */
module QueryParams {
  import opened Wrappers

  const Separator: char := ':'

  // ---------------------------------------------------------------------------
  // Splitting the sort string

  /** `s.split(sep)`: the pieces between separators, in order; never empty. */
  function Split(s: string, sep: char): (r: seq<string>)
    ensures |r| >= 1
  {
    if s == [] then [""]
    else
      var rest := Split(s[1..], sep);
      if s[0] == sep then [""] + rest else [[s[0]] + rest[0]] + rest[1..]
  }

  /** The pieces joined back with the separator between them. */
  function Join(parts: seq<string>, sep: char): string
    requires |parts| >= 1
  {
    if |parts| == 1 then parts[0] else parts[0] + [sep] + Join(parts[1..], sep)
  }

  /** Splitting loses nothing: joining the pieces gives the string back, and no piece holds the separator. */
  lemma {:induction false} SplitJoin(s: string, sep: char)
    ensures Join(Split(s, sep), sep) == s
    ensures forall i :: 0 <= i < |Split(s, sep)| ==> sep !in Split(s, sep)[i]
  {
    if s != [] {
      var rest := Split(s[1..], sep);
      SplitJoin(s[1..], sep);
      if s[0] == sep {
        assert ([""] + rest)[1..] == rest;
        assert forall i :: 1 <= i < |[""] + rest| ==> ([""] + rest)[i] == rest[i - 1];
      } else {
        var r := [[s[0]] + rest[0]] + rest[1..];
        if |rest| == 1 {
          assert r == [[s[0]] + rest[0]];
        } else {
          assert r[1..] == rest[1..];
          assert Join(rest, sep) == rest[0] + [sep] + Join(rest[1..], sep);
          assert [s[0]] + (rest[0] + [sep] + Join(rest[1..], sep)) == ([s[0]] + rest[0]) + [sep] + Join(rest[1..], sep);
        }
        assert s == [s[0]] + s[1..];
        forall i | 1 <= i < |r|
          ensures sep !in r[i]
        {
          assert r[i] == rest[i];
        }
      }
    }
  }

  /** A string without the separator is one piece. */
  lemma {:induction false} SplitWithoutSeparator(s: string, sep: char)
    requires sep !in s
    ensures Split(s, sep) == [s]
  {
    if s != [] {
      assert s[0] != sep && sep !in s[1..];
      SplitWithoutSeparator(s[1..], sep);
      assert [s[0]] + s[1..] == s;
    }
  }

  /** Splitting `f:rest` with `f` free of separators gives `f` and then the pieces of `rest`. */
  lemma {:induction false} SplitAfterFirst(f: string, rest: string, sep: char)
    requires sep !in f
    ensures Split(f + [sep] + rest, sep) == [f] + Split(rest, sep)
  {
    if f == [] {
      assert f + [sep] + rest == [sep] + rest;
      assert ([sep] + rest)[1..] == rest;
    } else {
      assert (f + [sep] + rest)[1..] == f[1..] + [sep] + rest;
      SplitAfterFirst(f[1..], rest, sep);
      assert [f[0]] + f[1..] == f;
    }
  }

  // ---------------------------------------------------------------------------
  // Sorting

  datatype Order = Asc | Desc

  datatype SortBy = SortBy(field: string, order: Order)

  /**
   * `const [sortField, sortOrder] = sort.split(':')`, then the field if it is
   * whitelisted, else the default, and `asc` only for exactly `"asc"`.
   */
  function ParseSort(sort: string, valid: seq<string>, defaultField: string): (r: SortBy)
    requires defaultField in valid
    ensures r.field in valid
    ensures Split(sort, Separator)[0] in valid ==> r.field == Split(sort, Separator)[0]
    ensures Split(sort, Separator)[0] !in valid ==> r.field == defaultField
    ensures r.order == Asc <==> |Split(sort, Separator)| >= 2 && Split(sort, Separator)[1] == "asc"
  {
    var parts := Split(sort, Separator);
    var field := if parts[0] in valid then parts[0] else defaultField;
    var order := if |parts| >= 2 && parts[1] == "asc" then Asc else Desc;
    SortBy(field, order)
  }

  /**
   * What the sort parameter means: for `field:order` with no colon in
   * `field` or `order`, a whitelisted field is kept and any other gives the
   * default, and the order is ascending exactly when it reads `asc`; a
   * parameter without a colon sorts descending.
   */
  lemma ParseSortMeaning(field: string, order: string, valid: seq<string>, defaultField: string)
    requires defaultField in valid && Separator !in field && Separator !in order
    ensures ParseSort(field + [Separator] + order, valid, defaultField)
            == SortBy(if field in valid then field else defaultField, if order == "asc" then Asc else Desc)
    ensures ParseSort(field, valid, defaultField) == SortBy(if field in valid then field else defaultField, Desc)
  {
    SplitAfterFirst(field, order, Separator);
    SplitWithoutSeparator(order, Separator);
    SplitWithoutSeparator(field, Separator);
  }

  // ---------------------------------------------------------------------------
  // Pages

  /** `skip = (page - 1) * limit`: the rows on the pages before `page`. */
  function Skip(page: int, limit: int): (r: int)
    ensures page >= 1 && limit >= 0 ==> r >= 0
  {
    (page - 1) * limit
  }

  /** `Math.ceil(total / limit)`: the fewest pages of `limit` rows that hold `total` rows. */
  function TotalPages(total: nat, limit: int): (r: nat)
    requires limit >= 1
    ensures r * limit >= total
    ensures r == 0 || (r - 1) * limit < total
  {
    var q := total / limit;
    if q * limit == total then q else q + 1
  }

  /**
   * The pages split the rows without gap or overlap: row `k` of `total` is on
   * page `k / limit + 1`, which is one of the `TotalPages` pages, and lies
   * between that page's offset and the next one's.
   */
  lemma PageOfRow(k: nat, total: nat, limit: int)
    requires limit >= 1 && k < total
    ensures var page := k / limit + 1;
            && 1 <= page <= TotalPages(total, limit)
            && Skip(page, limit) <= k < Skip(page + 1, limit)
  {
    var q := k / limit;
    var pages := TotalPages(total, limit);
    assert q * limit + k % limit == k;
    assert Skip(q + 1, limit) == q * limit;
    assert Skip(q + 2, limit) == q * limit + limit;
    if pages <= q {
      MulMonotone(pages, q, limit);
      assert false;
    }
  }

  lemma MulMonotone(a: int, b: int, c: nat)
    requires a <= b
    ensures a * c <= b * c
  {
    assert b * c - a * c == (b - a) * c;
  }

  /** Page, limit and sort of a listing, with the defaults filled in. */
  datatype Listing = Listing(page: int, limit: int, skip: int, sort: SortBy)

  /**
   * The defaults apply only to parameters that are undefined (here `None`);
   * then the offset and the sort are derived as above.
   */
  function ListingOf(page: Option<int>, limit: Option<int>, sort: Option<string>,
                     defaultSort: string, valid: seq<string>, defaultField: string): (r: Listing)
    requires defaultField in valid
    ensures r.page == page.GetOr(1) && r.limit == limit.GetOr(20)
    ensures r.skip == Skip(r.page, r.limit)
    ensures r.sort == ParseSort(sort.GetOr(defaultSort), valid, defaultField)
  {
    var p := page.GetOr(1);
    var l := limit.GetOr(20);
    Listing(p, l, Skip(p, l), ParseSort(sort.GetOr(defaultSort), valid, defaultField))
  }
}
