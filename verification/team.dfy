/**
 * The Team page: a fixed roster, the department badge colours, and the
 * avatar fallback built from the initials of a member's name.
 */
module Team {
  import opened Opt
  import opened JsString

  datatype TeamMember = TeamMember(
    id: nat, name: string, role: string, email: string,
    phone: string, avatar: string, department: string)

  const TeamMembers: seq<TeamMember> := [
    TeamMember(1, "Alex Johnson", "Product Manager", "alex@example.com", "+1 (555) 123-4567", "/placeholder.svg", "Product"),
    TeamMember(2, "Sarah Chen", "UI/UX Designer", "sarah@example.com", "+1 (555) 234-5678", "/placeholder.svg", "Design"),
    TeamMember(3, "Raj Patel", "Frontend Developer", "raj@example.com", "+1 (555) 345-6789", "/placeholder.svg", "Engineering"),
    TeamMember(4, "Maria Garcia", "Backend Developer", "maria@example.com", "+1 (555) 456-7890", "/placeholder.svg", "Engineering"),
    TeamMember(5, "James Wilson", "Data Analyst", "james@example.com", "+1 (555) 567-8901", "/placeholder.svg", "Analytics")
  ]

  const DepartmentColors: map<string, string> := map[
    "Product" := "bg-blue-100 text-blue-800",
    "Design" := "bg-purple-100 text-purple-800",
    "Engineering" := "bg-green-100 text-green-800",
    "Analytics" := "bg-yellow-100 text-yellow-800",
    "Marketing" := "bg-pink-100 text-pink-800"
  ]

  /** `departmentColors[department]`, looked up among the table's own keys; `None` for any other department. */
  function DepartmentBadge(department: string): (c: Option<string>)
    ensures c.Some? <==> department in DepartmentColors
    ensures c.Some? ==> c.value == DepartmentColors[department]
  {
    if department in DepartmentColors then Some(DepartmentColors[department]) else None
  }

  /** Every member of the roster has a badge colour, and the ids are 1 to 5. */
  lemma RosterWellFormed()
    ensures forall k :: 0 <= k < |TeamMembers| ==> DepartmentBadge(TeamMembers[k].department).Some?
    ensures forall k :: 0 <= k < |TeamMembers| ==> TeamMembers[k].id == k + 1
  {
  }

  /** Reference definition: the parts that are not empty, in their order. */
  function NonEmptyParts(parts: seq<string>): (q: seq<string>)
    ensures |q| <= |parts|
    ensures forall k :: 0 <= k < |q| ==> q[k] != [] && q[k] in parts
  {
    if parts == [] then []
    else (if parts[0] == [] then [] else [parts[0]]) + NonEmptyParts(parts[1..])
  }

  /**
   * `parts.map(n => n[0]).join('')`: `n[0]` of an empty part is `undefined`,
   * which `join` renders as nothing, so the result is the first characters
   * of the non-empty parts, in order.
   */
  function FirstChars(parts: seq<string>): (r: string)
    ensures |r| == |NonEmptyParts(parts)|
    ensures forall k :: 0 <= k < |r| ==> r[k] == NonEmptyParts(parts)[k][0]
    ensures forall k :: 0 <= k < |parts| && parts[k] != [] ==> parts[k][0] in r
  {
    if parts == [] then []
    else
      var rest := FirstChars(parts[1..]);
      assert forall k :: 1 <= k < |parts| ==> parts[k] == parts[1..][k - 1];
      (if parts[0] == [] then [] else [parts[0][0]]) + rest
  }

  /** The avatar fallback: `name.split(' ').map(n => n[0]).join('')`, the first letters of the words. */
  function Initials(name: string): (r: string)
    ensures r == WordStarts(name, true)
  {
    FirstCharsSplit(name);
    FirstChars(Split(name, ' '))
  }

  /** The character `c` as a word start, if a word may start there. */
  function StartChar(c: char, afterSpace: bool): string
  {
    if afterSpace && c != ' ' then [c] else []
  }

  /**
   * Reference definition: the characters that begin a word, i.e. that are
   * not a space and come first or right after a space (`afterSpace` says
   * whether the character before `s` was a space or `s` is at the start).
   */
  function WordStarts(s: string, afterSpace: bool): string
  {
    if s == [] then [] else StartChar(s[0], afterSpace) + WordStarts(s[1..], s[0] == ' ')
  }

  /** Whether a word may start right after `a`. */
  function AfterSpace(a: string, afterSpace: bool): bool
  {
    if a == [] then afterSpace else a[|a| - 1] == ' '
  }

  lemma {:induction false} FirstCharsSplit(s: string)
    ensures FirstChars(Split(s, ' ')) == WordStarts(s, true)
    ensures FirstChars(Split(s, ' ')[1..]) == WordStarts(s, false)
    decreases |s|
  {
    if s != [] {
      var rest := Split(s[1..], ' ');
      FirstCharsSplit(s[1..]);
      if s[0] == ' ' {
        assert Split(s, ' ') == [[]] + rest;
        assert ([[]] + rest)[1..] == rest;
      } else {
        var parts := [[s[0]] + rest[0]] + rest[1..];
        assert Split(s, ' ') == parts;
        assert parts[1..] == rest[1..];
      }
    }
  }

  lemma {:induction false} WordStartsAppend(a: string, b: string, afterSpace: bool)
    ensures WordStarts(a + b, afterSpace) == WordStarts(a, afterSpace) + WordStarts(b, AfterSpace(a, afterSpace))
    decreases |a|
  {
    if a == [] {
      assert a + b == b;
    } else {
      var ab, tail, inner := a + b, a[1..], a[0] == ' ';
      assert ab[0] == a[0] && ab[1..] == tail + b;
      WordStartsAppend(tail, b, inner);
      assert AfterSpace(tail, inner) == AfterSpace(a, afterSpace);
      var h := StartChar(a[0], afterSpace);
      assert WordStarts(ab, afterSpace) == h + WordStarts(tail + b, inner);
      assert WordStarts(a, afterSpace) == h + WordStarts(tail, inner);
      assert h + (WordStarts(tail, inner) + WordStarts(b, AfterSpace(tail, inner)))
          == (h + WordStarts(tail, inner)) + WordStarts(b, AfterSpace(tail, inner));
    }
  }

  /** A word with no space in it contributes its first letter, if a word may start there. */
  lemma {:induction false} WordStartsOneWord(w: string, afterSpace: bool)
    requires w != [] && ' ' !in w
    ensures WordStarts(w, afterSpace) == if afterSpace then [w[0]] else []
    decreases |w|
  {
    if |w| > 1 {
      WordStartsOneWord(w[1..], false);
    } else {
      assert w[1..] == [];
    }
  }

  /** A first name and a last name separated by one space give two initials. */
  lemma InitialsOfTwoWords(first: string, last: string)
    requires first != [] && ' ' !in first
    requires last != [] && ' ' !in last
    ensures Initials(first + " " + last) == [first[0], last[0]]
  {
    WordStartsAppend(first + " ", last, true);
    WordStartsAppend(first, " ", true);
    WordStartsOneWord(first, true);
    WordStartsOneWord(last, true);
  }

  /** Every name on the roster is a first and a last name, so every avatar shows two initials. */
  lemma RosterInitials(k: int)
    requires 0 <= k < |TeamMembers|
    ensures |Initials(TeamMembers[k].name)| == 2
    ensures Initials(TeamMembers[k].name)[0] == TeamMembers[k].name[0]
  {
    var name := TeamMembers[k].name;
    if k == 0 {
      TwoWordName(name, "Alex", "Johnson");
    } else if k == 1 {
      TwoWordName(name, "Sarah", "Chen");
    } else if k == 2 {
      TwoWordName(name, "Raj", "Patel");
    } else if k == 3 {
      TwoWordName(name, "Maria", "Garcia");
    } else {
      TwoWordName(name, "James", "Wilson");
    }
  }

  lemma TwoWordName(name: string, first: string, last: string)
    requires first != [] && ' ' !in first
    requires last != [] && ' ' !in last
    requires name == first + " " + last
    ensures |Initials(name)| == 2 && Initials(name)[0] == name[0]
  {
    InitialsOfTwoWords(first, last);
  }

  /** Alex Johnson's avatar reads "AJ". */
  lemma AlexInitials()
    ensures Initials(TeamMembers[0].name) == "AJ"
  {
    assert TeamMembers[0].name == "Alex" + " " + "Johnson";
    InitialsOfTwoWords("Alex", "Johnson");
  }
}
