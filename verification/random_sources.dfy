/** The sources of values the populate scripts draw from: `random`, `uuid.uuid4`
    and a `Faker("pt_BR")` instance. Each draw is a nondeterministic choice
    constrained only by what the library documents (its range, or its
    uniqueness); the distribution is not modelled. */
module RandomSources {
  import opened Base
  import opened Calendar

  /** `random.choice(xs)`: some element of the list; IndexError on an empty list. */
  method Choice<T>(xs: seq<T>) returns (r: Result<T>)
    ensures r.Failure? <==> |xs| == 0
    ensures r.Failure? ==> r.error == IndexError
    ensures r.Success? ==> r.value in xs
  {
    if |xs| == 0 {
      return Failure(IndexError);
    }
    var i :| 0 <= i < |xs|;
    r := Success(xs[i]);
  }

  /** `random.randint(a, b)`: an integer from a to b, both included. With both
      bounds in cents it is also `round(random.uniform(lo, hi), 2)`: an amount
      from lo to hi with two fractional digits. */
  method RandInt(a: int, b: int) returns (n: int)
    requires a <= b
    ensures a <= n <= b
  {
    n :| a <= n <= b;
  }

  /** Position lists of length k that `random.sample` may pick from a population of n. */
  predicate SamplePositions(idx: seq<nat>, n: nat, k: nat) {
    |idx| == k && Distinct(idx) && forall i :: 0 <= i < |idx| ==> idx[i] < n
  }

  /** `random.sample(population, k)`: the elements at k pairwise distinct positions
      of the population, in the order drawn; ValueError when k exceeds the
      population. */
  method Sample<T>(population: seq<T>, k: nat) returns (r: Result<seq<T>>)
    ensures r.Failure? <==> k > |population|
    ensures r.Failure? ==> r.error == ValueError
    ensures r.Success? ==> |r.value| == k && forall x :: x in r.value ==> x in population
    ensures r.Success? && Distinct(population) ==> Distinct(r.value)
  {
    if k > |population| {
      return Failure(ValueError);
    }
    assert SamplePositions(seq(k, i => i), |population|, k);
    var idx: seq<nat> :| SamplePositions(idx, |population|, k);
    assert SamplePositions(idx, |population|, k);
    var picked := seq(k, i requires 0 <= i < k => population[idx[i]]);
    assert forall x :: x in picked ==> x in population;
    if Distinct(population) {
      forall i, j | 0 <= i < k && 0 <= j < k && i != j
        ensures picked[i] != picked[j]
      {
        assert idx[i] != idx[j];
      }
    }
    r := Success(picked);
  }

  /** Every finite set of naturals leaves some natural out. */
  lemma {:induction false} NatOutside(s: set<nat>) returns (n: nat)
    ensures n !in s && forall x :: x in s ==> x < n
    decreases s
  {
    if s == {} {
      n := 0;
    } else {
      var x :| x in s;
      var m := NatOutside(s - {x});
      n := if x < m then m else x + 1;
      assert forall y :: y in s ==> y == x || y in s - {x};
    }
  }

  /** Every finite set of strings leaves some string out: one longer than all of them. */
  lemma {:induction false} StringOutside(s: set<string>) returns (e: string)
    ensures e !in s && forall x :: x in s ==> |x| < |e|
    decreases s
  {
    if s == {} {
      e := "";
    } else {
      var x :| x in s;
      var rest := StringOutside(s - {x});
      e := if |x| < |rest| then rest else x + "x";
      assert forall y :: y in s ==> y == x || y in s - {x};
    }
  }

  /** `uuid.uuid4()`. A version-4 uuid is taken to be new; the model makes this
      true by construction, remembering every uuid handed out in `issued`. */
  class Uuid4 {
    var issued: set<Uuid>

    constructor ()
      ensures issued == {}
    {
      issued := {};
    }

    method Next() returns (id: Uuid)
      modifies this
      ensures id !in old(issued) && issued == old(issued) + {id}
    {
      var _ := NatOutside(issued);
      id :| id !in issued;
      issued := issued + {id};
    }
  }

  /** `ids` are pairwise distinct uuids handed out after `issued0` and by `issued`. */
  ghost predicate FreshIds(ids: seq<Uuid>, issued0: set<Uuid>, issued: set<Uuid>) {
    Distinct(ids) && forall i :: 0 <= i < |ids| ==> ids[i] in issued - issued0
  }

  /** A list of fresh ids stays fresh when the next uuid4 is appended. */
  lemma FreshIdsAppend(ids: seq<Uuid>, id: Uuid, issued0: set<Uuid>, issued: set<Uuid>, issued': set<Uuid>)
    requires FreshIds(ids, issued0, issued)
    requires issued0 <= issued && id !in issued && issued + {id} <= issued'
    ensures FreshIds(ids + [id], issued0, issued')
  {
    assert id !in ids;
    var ids' := ids + [id];
    forall i, j | 0 <= i < |ids'| && 0 <= j < |ids'| && i != j
      ensures ids'[i] != ids'[j]
    {
      if i < |ids| && j < |ids| {
        assert ids'[i] == ids[i] && ids'[j] == ids[j];
      }
    }
  }

  /** Faker's reading of the relative offsets the scripts pass as `start_date`:
      "-2y", "-1y" and "-6m", with 365.24-day years and 30.42-day months, in
      microseconds. */
  const TWO_YEARS: nat := 63_113_472_000_000
  const ONE_YEAR: nat := 31_556_736_000_000
  const SIX_MONTHS: nat := 15_769_728_000_000

  /** A `Faker("pt_BR")` instance. Free-text providers (names, phone numbers,
      words) give any string; `fake.unique` remembers what each of its providers
      has returned and never returns it again. */
  class Faker {
    var uniqueEmails: set<string>
    var uniqueCpfs: set<string>

    constructor ()
      ensures uniqueEmails == {} && uniqueCpfs == {}
    {
      uniqueEmails, uniqueCpfs := {}, {};
    }

    /** `fake.unique.email()`. */
    method UniqueEmail() returns (e: string)
      modifies this
      ensures e !in old(uniqueEmails) && uniqueEmails == old(uniqueEmails) + {e}
      ensures uniqueCpfs == old(uniqueCpfs)
    {
      var _ := StringOutside(uniqueEmails);
      e :| e !in uniqueEmails;
      uniqueEmails := uniqueEmails + {e};
    }

    /** `fake.unique.cpf()`. */
    method UniqueCpf() returns (c: string)
      modifies this
      ensures c !in old(uniqueCpfs) && uniqueCpfs == old(uniqueCpfs) + {c}
      ensures uniqueEmails == old(uniqueEmails)
    {
      var _ := StringOutside(uniqueCpfs);
      c :| c !in uniqueCpfs;
      uniqueCpfs := uniqueCpfs + {c};
    }

    /** `fake.name()`, `fake.phone_number()`, `fake.word()` and the like. */
    method Text() returns (s: string) {
      s :| true;
    }

    /** `fake.date_time_between(start_date=<span before now>, end_date="now")`. */
    method DateTimeBetween(now: DateTime, span: nat) returns (d: DateTime)
      ensures Instant(now) - span <= Instant(d) <= Instant(now)
    {
      assert WithinSpan(now, now, span);
      d :| WithinSpan(d, now, span);
      assert WithinSpan(d, now, span);
    }
  }

  /** `d` lies in the `span` microseconds up to and including `now`. */
  predicate WithinSpan(d: DateTime, now: DateTime, span: nat) {
    Instant(now) - span <= Instant(d) <= Instant(now)
  }
}
