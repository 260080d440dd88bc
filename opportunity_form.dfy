/** The create-opportunity form (app/organization/volunteer-opportunities/create/page.tsx):
    the component state `formData` with its `requiredSkills` list and the
    `newSkill` input box, changed by the add, remove and change handlers. */
module OpportunityForm {
  import opened Common

  /** The text fields `handleChange` can name. */
  datatype Field = Title | Description | Date | Location

  /** A skill list the handlers can build: distinct, non-empty, trimmed entries. */
  predicate GoodSkills(skills: seq<string>)
  {
    NoDuplicates(skills) && forall i :: 0 <= i < |skills| ==> skills[i] != "" && IsTrimmed(skills[i])
  }

  /** The list after `handleAddSkill` with `input` in the box. */
  function Added(skills: seq<string>, input: string): (r: seq<string>)
    ensures |skills| <= |r| <= |skills| + 1 && r[..|skills|] == skills
    ensures |r| == |skills| + 1 <==> Trim(input) != "" && Trim(input) !in skills
    ensures Trim(input) != "" ==> Trim(input) in r
    ensures forall x :: x in r ==> x in skills || x == Trim(input)
    ensures GoodSkills(skills) ==> GoodSkills(r)
  {
    TrimIsTrimmed(input);
    var s := Trim(input);
    if s != "" && s !in skills then skills + [s] else skills
  }

  /** The list after `handleRemoveSkill(skill)`. */
  function Removed(skills: seq<string>, skill: string): (r: seq<string>)
    ensures forall x :: x in r <==> x in skills && x != skill
    ensures IsSubsequence(r, skills)
    ensures skill !in skills ==> r == skills
    ensures GoodSkills(skills) ==> GoodSkills(r)
  {
    RemovalFacts(skills, skill);
    Filter(skills, (x: string) => x != skill)
  }

  lemma {:induction false} RemovalFacts(skills: seq<string>, skill: string)
    ensures skill !in skills ==> Filter(skills, (x: string) => x != skill) == skills
    ensures GoodSkills(skills) ==> GoodSkills(Filter(skills, (x: string) => x != skill))
  {
    var r := Filter(skills, (x: string) => x != skill);
    assert forall i :: 0 <= i < |r| ==> r[i] in r;
    if skill !in skills {
      FilterAll(skills, (x: string) => x != skill);
    }
    if NoDuplicates(skills) {
      SubsequenceNoDuplicates(r, skills);
    }
  }

  /** An order-preserving sub-list of a duplicate-free list is duplicate-free. */
  lemma {:induction false} SubsequenceNoDuplicates(r: seq<string>, s: seq<string>)
    requires IsSubsequence(r, s) && NoDuplicates(s)
    ensures NoDuplicates(r)
    decreases |s|
  {
    if r != [] && s != [] {
      assert NoDuplicates(s[1..]) by {
        forall i, j | 0 <= i < j < |s[1..]| ensures s[1..][i] != s[1..][j] {
          assert s[1..][i] == s[i + 1] && s[1..][j] == s[j + 1];
        }
      }
      if r[0] == s[0] {
        SubsequenceNoDuplicates(r[1..], s[1..]);
        SubsequenceMultiset(r[1..], s[1..]);
        assert r[0] !in s[1..] by {
          forall k | 0 < k < |s| ensures s[k] != s[0] { }
        }
        assert r[0] !in multiset(r[1..]);
        forall i, j | 0 <= i < j < |r| ensures r[i] != r[j] {
          if i == 0 {
            assert r[j] == r[1..][j - 1];
          } else {
            assert r[i] == r[1..][i - 1] && r[j] == r[1..][j - 1];
          }
        }
      } else {
        SubsequenceNoDuplicates(r, s[1..]);
      }
    }
  }

  lemma {:induction false} FilterAppendRejected(s: seq<string>, x: string)
    ensures Filter(s + [x], (y: string) => y != x) == Filter(s, (y: string) => y != x)
    decreases |s|
  {
    if s == [] {
      assert [] + [x] == [x];
      assert Filter([x], (y: string) => y != x) == Filter([x][1..], (y: string) => y != x);
    } else {
      assert (s + [x])[1..] == s[1..] + [x];
      FilterAppendRejected(s[1..], x);
    }
  }

  /** Adding a fresh skill and then removing it restores the list. */
  lemma {:induction false} AddThenRemove(skills: seq<string>, input: string)
    requires Trim(input) != "" && Trim(input) !in skills
    ensures Removed(Added(skills, input), Trim(input)) == skills
  {
    var s := Trim(input);
    FilterAppendRejected(skills, s);
    FilterAll(skills, (y: string) => y != s);
  }

  class Form {
    var title: string
    var description: string
    var date: string
    var location: string
    var requiredSkills: seq<string>
    var newSkill: string

    /** What every sequence of handler calls keeps. */
    predicate Valid()
      reads this
    {
      GoodSkills(requiredSkills)
    }

    /** The add button is enabled iff the trimmed box is non-empty. */
    predicate AddEnabled()
      reads this
    {
      Trim(newSkill) != ""
    }

    constructor()
      ensures Valid()
      ensures title == "" && description == "" && date == "" && location == ""
      ensures requiredSkills == [] && newSkill == ""
    {
      title, description, date, location := "", "", "", "";
      requiredSkills, newSkill := [], "";
    }

    /** The input box as the user types. */
    method Type(text: string)
      modifies this
      ensures newSkill == text
      ensures requiredSkills == old(requiredSkills)
      ensures title == old(title) && description == old(description) && date == old(date) && location == old(location)
    {
      newSkill := text;
    }

    /** `handleAddSkill`: the box is cleared only when the skill was added. */
    method AddSkill()
      requires Valid()
      modifies this
      ensures Valid()
      ensures requiredSkills == Added(old(requiredSkills), old(newSkill))
      ensures newSkill == if |requiredSkills| > |old(requiredSkills)| then "" else old(newSkill)
      ensures title == old(title) && description == old(description) && date == old(date) && location == old(location)
    {
      ghost var before := requiredSkills;
      var skill := Trim(newSkill);
      if skill != "" && skill !in requiredSkills {
        requiredSkills := requiredSkills + [skill];
        newSkill := "";
      }
      assert requiredSkills == Added(before, old(newSkill));
    }

    /** `handleRemoveSkill`. */
    method RemoveSkill(skill: string)
      requires Valid()
      modifies this
      ensures Valid()
      ensures requiredSkills == Removed(old(requiredSkills), skill)
      ensures newSkill == old(newSkill)
      ensures title == old(title) && description == old(description) && date == old(date) && location == old(location)
    {
      requiredSkills := Removed(requiredSkills, skill);
    }

    /** `handleChange`: only the named field changes. */
    method Change(field: Field, value: string)
      requires Valid()
      modifies this
      ensures Valid()
      ensures requiredSkills == old(requiredSkills) && newSkill == old(newSkill)
      ensures title == (if field == Title then value else old(title))
      ensures description == (if field == Description then value else old(description))
      ensures date == (if field == Date then value else old(date))
      ensures location == (if field == Location then value else old(location))
    {
      match field
      case Title => title := value;
      case Description => description := value;
      case Date => date := value;
      case Location => location := value;
    }
  }
}
