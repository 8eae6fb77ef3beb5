/** The onboarding gate and long-term user facts: a fixed interview of
    three questions whose answers are rendered through a one-slot
    template and stored as rows tagged "setup"; setup is needed exactly
    while no such row exists. The SQLite table is an in-memory list of
    (memory, source) rows in insertion order. */
module UserMemory {
  import Text

  /** One row of the user-memories table. */
  datatype Row = Row(memory: string, source: string)

  /** One interview question with the template its answer is stored through. */
  datatype SetupQuestion = SetupQuestion(key: string, question: string, memoryTemplate: string)

  const SetupSource := "setup"

  /** The one substitution point of a memory template. */
  const Placeholder := "{value}"

  /** The store the manager reads and writes. */
  class Database {
    var userMemories: seq<Row>

    constructor (rows: seq<Row>)
      ensures userMemories == rows
    {
      userMemories := rows;
    }
  }

  /** Number of rows tagged with `source`: the size of the query for that tag. */
  function CountSource(rows: seq<Row>, source: string): (n: nat)
    ensures n == |Filter(rows, source)|
  {
    if rows == [] then 0
    else (if rows[0].source == source then 1 else 0) + CountSource(rows[1..], source)
  }

  /** The count is zero exactly when no row carries the tag. */
  lemma {:induction false} CountZeroIff(rows: seq<Row>, source: string)
    ensures CountSource(rows, source) == 0 <==> forall i :: 0 <= i < |rows| ==> rows[i].source != source
  {
    if rows != [] {
      CountZeroIff(rows[1..], source);
      assert forall i :: 1 <= i < |rows| ==> rows[i] == rows[1..][i - 1];
    }
  }

  /** Setup is needed iff the count of "setup" rows is zero. */
  function NeedsSetupIn(rows: seq<Row>): (r: bool)
    ensures r <==> forall i :: 0 <= i < |rows| ==> rows[i].source != SetupSource
  {
    CountZeroIff(rows, SetupSource);
    CountSource(rows, SetupSource) == 0
  }

  /** The rows tagged `source`, in stored order. */
  function Filter(rows: seq<Row>, source: string): (r: seq<Row>)
    ensures |r| <= |rows|
    ensures forall x :: x in r <==> x in rows && x.source == source
  {
    if rows == [] then []
    else (if rows[0].source == source then [rows[0]] else []) + Filter(rows[1..], source)
  }

  /** Appending a row extends the query result by that row exactly when
      its tag matches, and leaves it unchanged otherwise. */
  lemma {:induction false} FilterSnoc(rows: seq<Row>, x: Row, source: string)
    ensures Filter(rows + [x], source) == Filter(rows, source) + (if x.source == source then [x] else [])
  {
    if rows != [] {
      assert (rows + [x])[1..] == rows[1..] + [x];
      FilterSnoc(rows[1..], x, source);
    } else {
      assert [x][1..] == [];
    }
  }

  /** Python's `template.format(value=...)` for a template whose only
      replacement field is `{value}`: every occurrence of the placeholder
      is replaced by the value, everything else is copied: a template
      opening with the slot renders opening with the value, and one opening
      with any other character keeps that character first. */
  function Substitute(template: string, value: string): (r: string)
    ensures Placeholder <= template ==> value <= r
    ensures template != [] && template[0] != '{' ==> r != [] && r[0] == template[0]
    decreases |template|
  {
    if template == [] then []
    else if Placeholder <= template then value + Substitute(template[|Placeholder|..], value)
    else [template[0]] + Substitute(template[1..], value)
  }

  /** The placeholder at the front is replaced by the value. */
  lemma SubstituteAtSlot(rest: string, value: string)
    ensures Substitute(Placeholder + rest, value) == value + Substitute(rest, value)
  {
    var t := Placeholder + rest;
    assert Placeholder <= t;
    assert t[|Placeholder|..] == rest;
  }

  /** A character other than an opening brace is copied. */
  lemma SubstituteAtChar(c: char, rest: string, value: string)
    requires c != '{'
    ensures Substitute([c] + rest, value) == [c] + Substitute(rest, value)
  {
    var t := [c] + rest;
    assert t[0] != Placeholder[0];
    assert t[1..] == rest;
  }

  /** Text without a brace is copied unchanged. */
  lemma {:induction false} SubstituteNoSlot(text: string, value: string)
    requires '{' !in text
    ensures Substitute(text, value) == text
  {
    if text != [] {
      assert text == [text[0]] + text[1..];
      SubstituteAtChar(text[0], text[1..], value);
      SubstituteNoSlot(text[1..], value);
    }
  }

  /** Brace-free text in front of a template is copied ahead of what the
      rest renders to. */
  lemma {:induction false} SubstituteCopiesPrefix(pre: string, rest: string, value: string)
    requires '{' !in pre
    ensures Substitute(pre + rest, value) == pre + Substitute(rest, value)
  {
    if pre != [] {
      assert pre + rest == [pre[0]] + (pre[1..] + rest);
      SubstituteAtChar(pre[0], pre[1..] + rest, value);
      SubstituteCopiesPrefix(pre[1..], rest, value);
      assert pre == [pre[0]] + pre[1..];
    } else {
      assert pre + rest == rest;
    }
  }

  /** A one-slot template renders as its text before the slot, the value,
      and its text after the slot. */
  lemma SubstituteOneSlot(before: string, after: string, value: string)
    requires '{' !in before && '{' !in after
    ensures Substitute(before + Placeholder + after, value) == before + value + after
  {
    var slotted := Placeholder + after;
    calc {
      Substitute(before + Placeholder + after, value);
      { Text.Associative(before, Placeholder, after); }
      Substitute(before + slotted, value);
      { SubstituteCopiesPrefix(before, slotted, value); }
      before + Substitute(slotted, value);
      { SubstituteAtSlot(after, value); SubstituteNoSlot(after, value); }
      before + (value + after);
      { Text.Associative(before, value, after); }
      before + value + after;
    }
  }


  /** The interview, in the order it is asked. */
  function DefaultQuestions(): (qs: seq<SetupQuestion>)
    ensures |qs| == 3
    ensures qs[0].key == "name" && qs[1].key == "city" && qs[2].key == "occupation"
  {
    [ SetupQuestion("name", "What is your name?", "My name is " + Placeholder),
      SetupQuestion("city", "Which city do you live in?", "I live in " + Placeholder),
      SetupQuestion("occupation", "What do you do for a living?", "I work as " + Placeholder) ]
  }

  /** Each interview answer is stored as the question's sentence with the
      answer at the end. */
  lemma DefaultTemplatesRender(value: string)
    ensures Substitute(DefaultQuestions()[0].memoryTemplate, value) == "My name is " + value
    ensures Substitute(DefaultQuestions()[1].memoryTemplate, value) == "I live in " + value
    ensures Substitute(DefaultQuestions()[2].memoryTemplate, value) == "I work as " + value
  {
    SubstituteOneSlot("My name is ", "", value);
    assert "My name is " + Placeholder + "" == "My name is " + Placeholder;
    SubstituteOneSlot("I live in ", "", value);
    assert "I live in " + Placeholder + "" == "I live in " + Placeholder;
    SubstituteOneSlot("I work as ", "", value);
    assert "I work as " + Placeholder + "" == "I work as " + Placeholder;
  }

  /** One "setup" row is enough to end onboarding, whatever else is stored. */
  lemma SetupRowEndsOnboarding(rows: seq<Row>, memory: string)
    ensures !NeedsSetupIn(rows + [Row(memory, SetupSource)])
  {
    var rows' := rows + [Row(memory, SetupSource)];
    assert rows'[|rows|].source == SetupSource;
  }

  class UserMemoryManager {
    const db: Database
    /** Whether setup was complete when the manager was built; later saves
        do not update it. */
    var isSetup: bool
    const setupQuestions: seq<SetupQuestion> := DefaultQuestions()

    constructor (db: Database)
      ensures this.db == db
      ensures isSetup == !NeedsSetupIn(db.userMemories)
      ensures setupQuestions == DefaultQuestions()
    {
      this.db := db;
      isSetup := !NeedsSetupIn(db.userMemories);
    }

    /** The stored rows tagged `source` ("setup" by default), in order. */
    function GetMemories(source: string := SetupSource): (r: seq<Row>)
      reads db
      ensures forall x :: x in r <==> x in db.userMemories && x.source == source
    {
      Filter(db.userMemories, source)
    }

    /** Appends one row; earlier rows are unchanged. */
    method SaveMemory(memory: string, source: string := SetupSource)
      modifies db
      ensures db.userMemories == old(db.userMemories) + [Row(memory, source)]
      ensures GetMemories(source) == old(GetMemories(source)) + [Row(memory, source)]
    {
      FilterSnoc(db.userMemories, Row(memory, source), source);
      db.userMemories := db.userMemories + [Row(memory, source)];
    }

    /** True iff no stored row is tagged "setup". */
    function NeedsSetup(): (r: bool)
      reads db
      ensures r <==> forall i :: 0 <= i < |db.userMemories| ==> db.userMemories[i].source != SetupSource
    {
      NeedsSetupIn(db.userMemories)
    }

    /** The interview: name, city, occupation, in that order. */
    function GetSetupQuestions(): (qs: seq<SetupQuestion>)
      ensures |qs| == 3
      ensures qs[0].key == "name" && qs[1].key == "city" && qs[2].key == "occupation"
      ensures qs == DefaultQuestions()
    {
      setupQuestions
    }

    /** Stores the question's template with the answer substituted, tagged
        "setup"; afterwards setup is no longer needed, while the flag taken
        at construction keeps its value. */
    method SaveSetupQuestion(question: SetupQuestion, value: string)
      modifies db
      ensures db.userMemories == old(db.userMemories) + [Row(Substitute(question.memoryTemplate, value), SetupSource)]
      ensures !NeedsSetup()
      ensures isSetup == old(isSetup)
    {
      var memory := Substitute(question.memoryTemplate, value);
      SaveMemory(memory);
      SetupRowEndsOnboarding(old(db.userMemories), memory);
    }
  }
}
