/**
 * components/forms/WaitlistForm.tsx: the interest checkboxes, whose toggle
 * copies the field's list into a `Set`, adds or deletes one interest and
 * turns the set back into a list; and `onSubmit`, which re-parses the data,
 * sends it, and on an ok response marks the form submitted and resets it.
 */
module WaitlistForm {
  import opened Common
  import opened Json
  import opened Http
  import opened Validations

  const InterestOptions: seq<string> := [
    "Weekend stays",
    "Extended stays (5+ nights)",
    "Full property buyouts",
    "Updates and stories from the build"
  ]

  // ------------------------------------------------ insertion-ordered sets

  /** `set.add(x)` on a set listed in insertion order: a new element goes last. */
  function Added(s: seq<string>, x: string): (r: seq<string>)
    ensures x in r && forall y :: y in r <==> y in s || y == x
  {
    if x in s then s else s + [x]
  }

  /** `set.delete(x)`: drop `x`, keep the rest in order. */
  function Removed(s: seq<string>, x: string): (r: seq<string>)
    ensures forall y :: y in r <==> y in s && y != x
    ensures |r| <= |s|
  {
    if s == [] then [] else (if s[0] == x then [] else [s[0]]) + Removed(s[1..], x)
  }

  /** `new Set(xs)` listed by `Array.from`: each element once, at its first occurrence. */
  function Dedup(xs: seq<string>): (r: seq<string>)
    ensures NoDuplicates(r)
    ensures forall y :: y in r <==> y in xs
  {
    if xs == [] then [] else Added(Dedup(xs[..|xs| - 1]), xs[|xs| - 1])
  }

  /** The list the checkbox for `interest` leaves in the field. */
  function Toggled(current: seq<string>, interest: string, checked: bool): (r: seq<string>)
    ensures NoDuplicates(r)
    ensures interest in r <==> checked
    ensures forall y :: y != interest ==> (y in r <==> y in current)
  {
    if checked then Added(Dedup(current), interest)
    else RemovedKeepsDistinct(Dedup(current), interest); Removed(Dedup(current), interest)
  }

  /** A JavaScript `Set` of strings, which lists its elements in insertion order. */
  class StringSet {
    var elements: seq<string>

    /** `new Set(xs)`. */
    constructor (xs: seq<string>)
      ensures elements == Dedup(xs)
    {
      elements := [];
      new;
      var i := 0;
      while i < |xs|
        invariant 0 <= i <= |xs|
        invariant elements == Dedup(xs[..i])
      {
        assert xs[..i + 1][..i] == xs[..i];
        Add(xs[i]);
        i := i + 1;
      }
      assert xs[..|xs|] == xs;
    }

    method Add(x: string)
      modifies this
      ensures elements == Added(old(elements), x)
    {
      if x !in elements {
        elements := elements + [x];
      }
    }

    method Delete(x: string)
      modifies this
      ensures elements == Removed(old(elements), x)
    {
      elements := Removed(elements, x);
    }

    /** `Array.from(set)`. */
    method ToArray() returns (r: seq<string>)
      ensures r == elements
    {
      r := elements;
    }
  }

  // ------------------------------------------------------- toggle properties

  lemma {:induction false} NoDuplicatesCount(s: seq<string>, x: string)
    requires NoDuplicates(s) && x in s
    ensures multiset(s)[x] == 1
  {
    assert s == [s[0]] + s[1..];
    if s[0] == x {
      assert x !in s[1..];
    } else {
      NoDuplicatesCount(s[1..], x);
    }
  }

  /** A list without duplicates is its own set. */
  lemma {:induction false} DedupDistinct(s: seq<string>)
    requires NoDuplicates(s)
    ensures Dedup(s) == s
  {
    if s != [] {
      var init := s[..|s| - 1];
      DedupDistinct(init);
      assert s[|s| - 1] !in init;
      assert init + [s[|s| - 1]] == s;
    }
  }

  /** Deleting the element at `k` of a list without duplicates closes the gap. */
  lemma {:induction false} RemovedAt(s: seq<string>, k: nat)
    requires NoDuplicates(s) && k < |s|
    ensures Removed(s, s[k]) == s[..k] + s[k + 1..]
  {
    if k == 0 {
      assert s[k] !in s[1..];
      RemovedAbsent(s[1..], s[k]);
    } else {
      RemovedAt(s[1..], k - 1);
      assert s[1..][k - 1] == s[k];
      assert s[1..][..k - 1] == s[1..k] && s[1..][k..] == s[k + 1..];
      assert s[..k] == [s[0]] + s[1..k];
    }
  }

  /** Deleting an element that is not there changes nothing. */
  lemma {:induction false} RemovedAbsent(s: seq<string>, x: string)
    requires x !in s
    ensures Removed(s, x) == s
  {
    if s != [] {
      RemovedAbsent(s[1..], x);
      assert [s[0]] + s[1..] == s;
    }
  }

  lemma {:induction false} RemovedKeepsDistinct(s: seq<string>, x: string)
    requires NoDuplicates(s)
    ensures NoDuplicates(Removed(s, x))
  {
    if s != [] {
      RemovedKeepsDistinct(s[1..], x);
      assert s[0] !in s[1..];
    }
  }

  /**
   * Checking an interest leaves it in the list exactly once, with every other
   * interest that was selected; a new interest goes at the end and the others
   * keep their first-occurrence order.
   */
  lemma CheckAdds(current: seq<string>, interest: string)
    ensures
      var r := Toggled(current, interest, true);
      && NoDuplicates(r)
      && interest in r && multiset(r)[interest] == 1
      && (forall y :: y in r <==> y in current || y == interest)
      && r == (if interest in current then Dedup(current) else Dedup(current) + [interest])
  {
    var d := Dedup(current);
    var r := Toggled(current, interest, true);
    if interest !in d {
      assert forall i :: 0 <= i < |d| ==> d[i] != interest;
      assert NoDuplicates(r) by {
        forall i, j | 0 <= i < j < |r| ensures r[i] != r[j] {
          if j == |d| {
            assert r[i] == d[i];
          }
        }
      }
    }
    NoDuplicatesCount(r, interest);
  }

  /** Unchecking an interest removes it and keeps every other selected interest. */
  lemma UncheckRemoves(current: seq<string>, interest: string)
    ensures
      var r := Toggled(current, interest, false);
      && NoDuplicates(r)
      && interest !in r
      && (forall y :: y != interest ==> (y in r <==> y in current))
  {
    RemovedKeepsDistinct(Dedup(current), interest);
  }

  /**
   * On a list without duplicates (every list a toggle produces) the order is
   * exactly kept: checking appends or changes nothing, unchecking closes the gap.
   */
  lemma ToggleKeepsOrder(current: seq<string>, interest: string)
    requires NoDuplicates(current)
    ensures Toggled(current, interest, true) == if interest in current then current else current + [interest]
    ensures interest !in current ==> Toggled(current, interest, false) == current
    ensures forall k :: 0 <= k < |current| && current[k] == interest ==>
              Toggled(current, interest, false) == current[..k] + current[k + 1..]
  {
    DedupDistinct(current);
    if interest !in current {
      RemovedAbsent(current, interest);
    }
    forall k | 0 <= k < |current| && current[k] == interest
      ensures Toggled(current, interest, false) == current[..k] + current[k + 1..]
    {
      RemovedAt(current, k);
    }
  }

  /** Toggling an offered interest on a list of offered interests yields a list of offered interests. */
  lemma ToggleWithinOptions(current: seq<string>, interest: string, checked: bool)
    requires forall i :: 0 <= i < |current| ==> current[i] in InterestOptions
    requires interest in InterestOptions
    ensures forall y :: y in Toggled(current, interest, checked) ==> y in InterestOptions
  {
  }

  // ----------------------------------------------------------------- the form

  const Endpoint: string := "/api/waitlist"

  /** The component's state: `submitted`, the `interests` field, and the requests it has sent. */
  class Form {
    var submitted: bool
    var interests: seq<string>
    var sent: seq<Request>

    /** `useForm({ defaultValues: { interests: [] } })`. */
    constructor ()
      ensures !submitted && interests == [] && sent == []
    {
      submitted := false;
      interests := [];
      sent := [];
    }

    /** A checkbox shows as checked when its interest is in the field. */
    predicate IsChecked(interest: string)
      reads this
    {
      interest in interests
    }

    /** `onCheckedChange` of the checkbox for `interest`. */
    method OnCheckedChange(interest: string, checked: bool)
      modifies this
      ensures interests == Toggled(old(interests), interest, checked)
      ensures IsChecked(interest) == checked
      ensures submitted == old(submitted) && sent == old(sent)
    {
      var value := new StringSet(interests);
      if checked {
        value.Add(interest);
      } else {
        value.Delete(interest);
      }
      interests := value.ToArray();
    }

    /**
     * `onSubmit`, called by the form library with data the schema accepted.
     * The data is parsed again (which cannot fail on such data) and sent; a
     * response that is not ok throws into the `catch`, so the form stays as
     * it was; an ok one marks it submitted and resets the field.
     */
    method OnSubmit(data: WaitlistData, result: FetchResult)
      requires IsWaitlistData(data)
      requires data.interests == interests
      modifies this
      ensures sent == old(sent) + [Request(Endpoint, WaitlistJson(data))]
      ensures ValidateWaitlist(sent[|sent| - 1].body) == Success(data)
      ensures submitted <==> old(submitted) || (result.Responded? && Ok(result.status))
      ensures interests == if result.Responded? && Ok(result.status) then [] else old(interests)
    {
      WaitlistRoundTrip(data);
      var payload := ValidateWaitlist(WaitlistJson(data));
      sent := sent + [Request(Endpoint, WaitlistJson(payload.value))];
      if result.Responded? && Ok(result.status) {
        submitted := true;
        interests := [];
      }
    }
  }
}
