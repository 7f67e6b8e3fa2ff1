/**
 * The SOLID "spot the violation" snippets that carry logic: email validation
 * in `UserService.register`, a bonus by role as a ladder and as a table, and
 * a notification subclass whose `send` always throws, run in a list by
 * `notifyAll`.
 */
module SolidExercises {
  import opened Records

  /** `needle` occurs in `s` starting at position `i`. */
  predicate OccursAt(s: string, needle: string, i: int)
  {
    0 <= i <= |s| - |needle| && s[i..i + |needle|] == needle
  }

  /** `String.prototype.includes`, as a scan from the left. */
  function Includes(s: string, needle: string): (b: bool)
    decreases |s|
  {
    if |needle| <= |s| && s[..|needle|] == needle then
      true
    else if s == [] then
      false
    else
      Includes(s[1..], needle)
  }

  /** The scan answers yes exactly when the needle occurs somewhere. */
  lemma {:induction false} IncludesIffOccurs(s: string, needle: string)
    ensures Includes(s, needle) <==> exists i :: OccursAt(s, needle, i)
    decreases |s|
  {
    if |needle| <= |s| && s[..|needle|] == needle {
      assert OccursAt(s, needle, 0);
    } else if s == [] {
    } else {
      IncludesIffOccurs(s[1..], needle);
      if exists i :: OccursAt(s[1..], needle, i) {
        var i :| OccursAt(s[1..], needle, i);
        assert s[i + 1..i + 1 + |needle|] == s[1..][i..i + |needle|];
        assert OccursAt(s, needle, i + 1);
      }
      if exists i :: OccursAt(s, needle, i) {
        var i :| OccursAt(s, needle, i);
        assert i != 0;
        assert s[1..][i - 1..i - 1 + |needle|] == s[i..i + |needle|];
        assert OccursAt(s[1..], needle, i - 1);
      }
    }
  }

  /** Searching for a one-character string finds exactly the strings holding that character. */
  lemma IncludesOneChar(s: string, c: char)
    ensures Includes(s, [c]) <==> c in s
  {
    IncludesIffOccurs(s, [c]);
    if c in s {
      var i :| 0 <= i < |s| && s[i] == c;
      assert OccursAt(s, [c], i);
    }
    if exists i :: OccursAt(s, [c], i) {
      var i :| OccursAt(s, [c], i);
      assert s[i] == s[i..i + 1][0];
    }
  }

  /** The registration data `register` reads. */
  datatype UserData = UserData(email: string)

  /**
   * `UserService.register`: throw "Invalid email" exactly when the email has
   * no `@`; otherwise print the registration line and return "Registered!".
   */
  function Register(userData: UserData): (r: Run<string>)
    ensures r.outcome.Ok? <==> '@' in userData.email
    ensures r.outcome.Threw? ==> r == Run([], Threw("Invalid email"))
    ensures r.outcome.Ok? ==> r == Run([Registered(userData.email)], Ok("Registered!"))
  {
    IncludesOneChar(userData.email, '@');
    if !Includes(userData.email, "@") then
      Run([], Threw("Invalid email"))
    else
      Run([Registered(userData.email)], Ok("Registered!"))
  }

  /** The employee record the bonus functions read. */
  datatype Employee = Employee(role: string, salary: real)

  /**
   * `calculateBonus`: a ladder over the role, 0 for any role it does not
   * test. A non-negative salary earns at most a quarter of itself.
   */
  function CalculateBonus(employee: Employee): (r: real)
    ensures 0.0 <= employee.salary ==> 0.0 <= r <= employee.salary / 4.0
  {
    if employee.role == "developer" then
      employee.salary * 0.1
    else if employee.role == "manager" then
      employee.salary * 0.15
    else if employee.role == "director" then
      employee.salary * 0.25
    else
      0.0
  }

  /** The rate each role gets from the ladder. */
  lemma CalculateBonusByRole(salary: real, role: string)
    ensures CalculateBonus(Employee("developer", salary)) == salary * 0.1
    ensures CalculateBonus(Employee("manager", salary)) == salary * 0.15
    ensures CalculateBonus(Employee("director", salary)) == salary * 0.25
    ensures role !in {"developer", "manager", "director"} ==>
      CalculateBonus(Employee(role, salary)) == 0.0
  {
  }

  /** `bonusRates`. */
  const BonusRates: map<string, real> := map[
    "developer" := 0.1,
    "manager"   := 0.15,
    "director"  := 0.25
  ]

  /**
   * `calculateBonusBetter`: salary times the role's rate, or times 0 for a
   * role the table lacks; equal to the ladder for every role and salary.
   */
  function CalculateBonusBetter(employee: Employee): (r: real)
    ensures r == CalculateBonus(employee)
  {
    employee.salary * (if employee.role in BonusRates then BonusRates[employee.role] else 0.0)
  }

  /** The file's own demonstrations: 15000 for a manager and 25000 for a director on 100000. */
  lemma BonusExamples()
    ensures CalculateBonus(Employee("manager", 100000.0)) == 15000.0
    ensures CalculateBonusBetter(Employee("director", 100000.0)) == 25000.0
  {
  }

  /** The base notification class and the subclass that overrides `send` to throw. */
  datatype Notification = BaseNotification | ReadOnlyNotification

  /**
   * `send` of either class: the base class prints one line to the user's
   * email; the read-only subclass always throws and prints nothing.
   */
  function Send(channel: Notification, user: UserData, message: string): (r: Run<()>)
    ensures r.outcome.Threw? <==> channel == ReadOnlyNotification
    ensures r.outcome.Threw? ==>
      r == Run([], Threw("This notification channel is read-only!"))
    ensures r.outcome.Ok? ==> r.events == [Notified("Notified", user.email, Text(message))]
  {
    match channel
    case BaseNotification => Run([Notified("Notified", user.email, Text(message))], Ok(()))
    case ReadOnlyNotification => Run([], Threw("This notification channel is read-only!"))
  }

  /**
   * `notifyAll`: `send` on each channel in list order with the same user and
   * message; the first channel that throws ends the loop, its error
   * propagates, and no later channel is run.
   */
  method NotifyAll(channels: seq<Notification>, user: UserData, message: string) returns (r: Run<()>)
    ensures r.outcome.Ok? <==> ReadOnlyNotification !in channels
    ensures |r.events| <= |channels|
    ensures forall i :: 0 <= i < |r.events| ==>
      [r.events[i]] == Send(channels[i], user, message).events
    ensures r.outcome.Ok? ==> |r.events| == |channels|
    ensures r.outcome.Threw? ==>
      |r.events| < |channels| && r.outcome == Send(channels[|r.events|], user, message).outcome
  {
    var events: seq<Event> := [];
    var i := 0;
    while i < |channels|
      invariant 0 <= i <= |channels|
      invariant |events| == i
      invariant forall j :: 0 <= j < i ==>
        channels[j] == BaseNotification && [events[j]] == Send(channels[j], user, message).events
    {
      var sent := Send(channels[i], user, message);
      events := events + sent.events;
      if sent.outcome.Threw? {
        return Run(events, sent.outcome);
      }
      i := i + 1;
    }
    r := Run(events, Ok(()));
  }
}
