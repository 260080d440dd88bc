/** The donor's donation history page (app/donor/donations/page.tsx): the
    campaign filter, the CSV text the Export button downloads and the name of
    each receipt file. The download itself is left out. */
module DonorDonations {
  import opened Common

  /** A listed donation; the amount is display text such as "1,000 FCFA". */
  datatype Donation = Donation(ngo: string, campaign: string, amount: string, date: string, status: string)

  // ---------------------------------------------------------------------------
  // Filter

  /** `filteredDonations`: only the campaign is searched. */
  function Filtered(ds: seq<Donation>, filter: string): (r: seq<Donation>)
    ensures forall d :: d in r <==> d in ds && IncludesIgnoringCase(d.campaign, filter)
    ensures forall d :: multiset(r)[d] == if IncludesIgnoringCase(d.campaign, filter) then multiset(ds)[d] else 0
    ensures IsSubsequence(r, ds)
  {
    Filter(ds, (d: Donation) => IncludesIgnoringCase(d.campaign, filter))
  }

  /** The Clear button sets the filter to "", which lists every donation. */
  lemma {:induction false} ClearedFilterKeepsAll(ds: seq<Donation>)
    ensures Filtered(ds, "") == ds
  {
    forall d | d in ds
      ensures IncludesIgnoringCase(d.campaign, "")
    {
      EmptyQueryIncluded(d.campaign);
    }
    FilterAll(ds, (d: Donation) => IncludesIgnoringCase(d.campaign, ""));
  }

  // ---------------------------------------------------------------------------
  // CSV

  const Header: seq<string> := ["NGO", "Campaign", "Amount", "Date", "Status"]

  function Cells(d: Donation): seq<string>
  {
    [d.ngo, d.campaign, d.amount, d.date, d.status]
  }

  /** The rows of the export: the header, then one row per donation. */
  function Lines(ds: seq<Donation>): (r: seq<string>)
    ensures |r| == |ds| + 1 && r[0] == Join(Header, ",")
    ensures forall i :: 0 <= i < |ds| ==> r[i + 1] == Join(Cells(ds[i]), ",")
  {
    [Join(Header, ",")] + seq(|ds|, i requires 0 <= i < |ds| => Join(Cells(ds[i]), ","))
  }

  /** `handleExport`'s text: the rows joined with "\n", no trailing newline,
      no quoting. */
  function Csv(ds: seq<Donation>): string
  {
    Join(Lines(ds), "\n")
  }

  predicate NoNewline(d: Donation)
  {
    forall c :: c in Cells(d) ==> '\n' !in c
  }

  lemma {:induction false} JoinKeepsOut(xs: seq<string>, sep: string, c: char)
    requires c !in sep && forall i :: 0 <= i < |xs| ==> c !in xs[i]
    ensures c !in Join(xs, sep)
    decreases |xs|
  {
    if |xs| > 1 {
      JoinKeepsOut(xs[1..], sep, c);
    }
  }

  /** When no cell holds a newline, the export has exactly one line per
      donation after the header, in the listing's order. */
  lemma {:induction false} OneLinePerDonation(ds: seq<Donation>)
    requires forall i :: 0 <= i < |ds| ==> NoNewline(ds[i])
    ensures Split(Csv(ds), '\n') == Lines(ds)
  {
    var ls := Lines(ds);
    forall i | 0 <= i < |ls|
      ensures '\n' !in ls[i]
    {
      if i == 0 {
        JoinKeepsOut(Header, ",", '\n');
      } else {
        var d := ds[i - 1];
        forall k | 0 <= k < |Cells(d)| ensures '\n' !in Cells(d)[k] {
          assert Cells(d)[k] in Cells(d);
        }
        JoinKeepsOut(Cells(d), ",", '\n');
      }
    }
    SplitJoin(ls, '\n');
  }

  /** When no cell holds a comma, each row splits back into its five cells. */
  lemma {:induction false} RowRoundTrip(d: Donation)
    requires forall k :: 0 <= k < |Cells(d)| ==> ',' !in Cells(d)[k]
    ensures Split(Join(Cells(d), ","), ',') == Cells(d)
  {
    SplitJoin(Cells(d), ',');
  }

  /** Without quoting, an amount written with a thousands separator does not
      survive: its row splits into six cells, the amount cut in two. Section 2
      of RFC 4180 asks for such a field to be enclosed in double quotes. */
  lemma {:induction false} CommaInAmountSplitsRow(d: Donation, whole: string, rest: string)
    requires d.amount == whole + "," + rest
    requires forall c :: c in [d.ngo, d.campaign, whole, rest, d.date, d.status] ==> ',' !in c
    ensures Split(Join(Cells(d), ","), ',') == [d.ngo, d.campaign, whole, rest, d.date, d.status]
    ensures Split(Join(Cells(d), ","), ',') != Cells(d)
  {
    var pieces := [d.ngo, d.campaign, whole, rest, d.date, d.status];
    var tail := Join([d.date, d.status], ",");
    assert Join(Cells(d)[2..], ",") == d.amount + "," + tail;
    assert Join(pieces[2..], ",") == whole + "," + (rest + "," + tail);
    assert Join(Cells(d), ",") == Join(pieces, ",");
    forall i | 0 <= i < |pieces| ensures ',' !in pieces[i] {
      assert pieces[i] in pieces;
    }
    SplitJoin(pieces, ',');
  }

  /** The listing's "1,000 FCFA" is such an amount. */
  lemma ThousandsSeparatorBreaksRow(d: Donation)
    requires d.amount == "1,000 FCFA"
    requires forall c :: c in [d.ngo, d.campaign, d.date, d.status] ==> ',' !in c
    ensures |Split(Join(Cells(d), ","), ',')| == 6
  {
    assert d.amount == "1" + "," + "000 FCFA";
    CommaInAmountSplitsRow(d, "1", "000 FCFA");
  }

  // ---------------------------------------------------------------------------
  // Receipt file name

  /** `s.replace(/\s+/g, "-")`: each run of white space becomes one '-'. */
  function Dashed(s: string): (r: string)
    ensures NoSpace(r)
    ensures NoSpace(s) ==> r == s
    ensures |r| <= |s|
    decreases |s|
  {
    if s == [] then []
    else if IsSpace(s[0]) then
      TrimStartShorter(s);
      "-" + Dashed(TrimStart(s))
    else [s[0]] + Dashed(s[1..])
  }

  lemma {:induction false} TrimStartShorter(s: string)
    requires s != [] && IsSpace(s[0])
    ensures |TrimStart(s)| < |s| && (TrimStart(s) == [] || !IsSpace(TrimStart(s)[0]))
  {
    TrimStartShape(s);
    assert TrimStart(s) == TrimStart(s[1..]);
    TrimStartShape(s[1..]);
  }

  /** Every character of `w` is white space. */
  predicate AllSpace(w: string)
  {
    forall i :: 0 <= i < |w| ==> IsSpace(w[i])
  }

  /** `x` does not end inside a run of white space. */
  predicate EndsOutsideRun(x: string)
  {
    x == [] || !IsSpace(x[|x| - 1])
  }

  /** `y` does not start inside a run of white space. */
  predicate StartsOutsideRun(y: string)
  {
    y == [] || !IsSpace(y[0])
  }

  /** Each maximal run of white space becomes exactly one '-', whatever its
      length: the text on either side is dashed independently. */
  lemma RunBecomesOneDash(x: string, w: string, y: string)
    requires EndsOutsideRun(x) && w != [] && AllSpace(w) && StartsOutsideRun(y)
    ensures Dashed(x + w + y) == Dashed(x) + "-" + Dashed(y)
  {
    var a, b := Dashed(x), Dashed(y);
    assert Dashed(x + w + y) == a + "-" + b by {
      assert x + w + y == x + (w + y);
      DashedSplit(x, w + y);
      assert (w + y)[0] == w[0];
      DashedCons(w + y);
      TrimStartRun(w, y);
      ConcatAssociative(a, "-", b);
    }
  }

  /** Text that ends outside a run is dashed independently of what follows. */
  lemma {:induction false} DashedSplit(x: string, z: string)
    requires EndsOutsideRun(x)
    ensures Dashed(x + z) == Dashed(x) + Dashed(z)
    decreases |x|, 1
  {
    if x == [] {
      assert x + z == z;
    } else if IsSpace(x[0]) {
      DashedSplitRun(x, z);
    } else {
      DashedSplitKept(x, z);
    }
  }

  lemma {:induction false} DashedSplitRun(x: string, z: string)
    requires EndsOutsideRun(x) && x != [] && IsSpace(x[0])
    ensures Dashed(x + z) == Dashed(x) + Dashed(z)
    decreases |x|, 0
  {
    var rest := TrimStart(x);
    var a, b := Dashed(rest), Dashed(z);
    assert Dashed(x + z) == Dashed(x) + b by {
      assert (x + z)[0] == x[0];
      DashedCons(x + z);
      DashedCons(x);
      TrimStartKeepsTail(x, z);
      TrimStartShorter(x);
      DashedSplit(rest, z);
      ConcatAssociative("-", a, b);
    }
  }

  lemma {:induction false} DashedSplitKept(x: string, z: string)
    requires EndsOutsideRun(x) && x != [] && !IsSpace(x[0])
    ensures Dashed(x + z) == Dashed(x) + Dashed(z)
    decreases |x|, 0
  {
    var rest := x[1..];
    var a, b := Dashed(rest), Dashed(z);
    assert Dashed(x + z) == Dashed(x) + b by {
      assert (x + z)[0] == x[0];
      assert (x + z)[1..] == rest + z;
      DashedCons(x + z);
      DashedCons(x);
      assert rest != [] ==> rest[|rest| - 1] == x[|x| - 1];
      DashedSplit(rest, z);
      ConcatAssociative([x[0]], a, b);
    }
  }

  lemma ConcatAssociative(a: string, b: string, c: string)
    ensures a + (b + c) == (a + b) + c
  {
  }

  /** One step of `Dashed`: a leading run becomes '-', any other first
      character is kept. */
  lemma DashedCons(s: string)
    requires s != []
    ensures IsSpace(s[0]) ==> Dashed(s) == "-" + Dashed(TrimStart(s))
    ensures !IsSpace(s[0]) ==> Dashed(s) == [s[0]] + Dashed(s[1..])
  {
  }

  /** Leading white space of text that ends outside a run is stripped from
      that text alone. */
  lemma {:induction false} TrimStartKeepsTail(x: string, z: string)
    requires x != [] && !IsSpace(x[|x| - 1])
    ensures TrimStart(x + z) == TrimStart(x) + z
    ensures TrimStart(x) != [] && TrimStart(x)[|TrimStart(x)| - 1] == x[|x| - 1]
    decreases |x|
  {
    assert (x + z)[0] == x[0];
    if IsSpace(x[0]) {
      assert |x| > 1;
      assert (x + z)[1..] == x[1..] + z;
      TrimStartKeepsTail(x[1..], z);
    }
  }

  /** A run of white space followed by text that starts outside a run is
      stripped entirely. */
  lemma {:induction false} TrimStartRun(w: string, y: string)
    requires AllSpace(w) && StartsOutsideRun(y)
    ensures TrimStart(w + y) == y
    decreases |w|
  {
    if w == [] {
      assert w + y == y;
    } else {
      assert (w + y)[0] == w[0] && (w + y)[1..] == w[1..] + y;
      TrimStartRun(w[1..], y);
    }
  }

  /** The receipt's file name. */
  function ReceiptName(d: Donation): (r: string)
    ensures NoSpace(d.date) ==> NoSpace(r)
    ensures StartsWith(r, "receipt-")
  {
    "receipt-" + Dashed(d.campaign) + "-" + d.date + ".txt"
  }

  /** A run of several spaces becomes a single '-'. */
  lemma SpaceRunCollapses()
    ensures Dashed("a  b") == "a-b"
  {
    assert TrimStart("  b") == "b";
    assert Dashed("b") == "b";
  }
}
