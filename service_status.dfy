/** The `ServiceStatus` record of the bulkhead: one row per service name
    holding whether that service is enabled. The table itself is a map from
    name to flag (see Bulkhead.Gateway), which makes the unique constraint on
    the name hold by construction. */
module ServiceStatusModel {

  /** Declared length bound of the `service_name` column. */
  const MaxNameLength := 50

  datatype ServiceStatus = ServiceStatus(serviceName: string, isEnabled: bool)

  /** A name the column accepts. */
  predicate ValidName(name: string)
  {
    |name| <= MaxNameLength
  }

  /** A row created with only its name set: the flag takes its default. */
  function NewServiceStatus(name: string): (s: ServiceStatus)
    ensures s.serviceName == name && s.isEnabled
  {
    ServiceStatus(name, true)
  }

  /** `str(status)`: the name, a colon, then "Enabled" or "Disabled". */
  function Str(s: ServiceStatus): string
  {
    s.serviceName + ": " + (if s.isEnabled then "Enabled" else "Disabled")
  }

  /** The string form says "Enabled" exactly when the flag is set, so the
      string form of a row determines the row. */
  lemma StrReflectsFlag(s: ServiceStatus)
    ensures Str(s) == s.serviceName + ": Enabled" <==> s.isEnabled
    ensures Str(s) == s.serviceName + ": Disabled" <==> !s.isEnabled
  {
    var on := s.serviceName + ": Enabled";
    var off := s.serviceName + ": Disabled";
    assert |on| != |off|;
  }

  /** The character eight places from the end is the space of ": " when the
      row is enabled and the 'D' of "Disabled" when it is not. */
  lemma StrFlagCharacter(s: ServiceStatus)
    ensures |Str(s)| >= 9
    ensures Str(s)[|Str(s)| - 8] == ' ' <==> s.isEnabled
  {
  }

  /** Two rows with the same string form are the same row. */
  lemma StrInjective(a: ServiceStatus, b: ServiceStatus)
    requires Str(a) == Str(b)
    ensures a == b
  {
    StrFlagCharacter(a);
    StrFlagCharacter(b);
    assert a.isEnabled == b.isEnabled;
    var n := |a.serviceName|;
    assert a.serviceName == Str(a)[..n];
    assert b.serviceName == Str(b)[..n];
  }

  /** The rows of a table kept as a map from name to flag. */
  function Rows(table: map<string, bool>): (rows: set<ServiceStatus>)
    ensures forall name :: name in table ==> ServiceStatus(name, table[name]) in rows
    ensures forall r :: r in rows ==> r.serviceName in table && r.isEnabled == table[r.serviceName]
  {
    set name | name in table :: ServiceStatus(name, table[name])
  }

  /** The unique constraint: no two rows of the table share a name. */
  lemma AtMostOneRowPerName(table: map<string, bool>, r1: ServiceStatus, r2: ServiceStatus)
    requires r1 in Rows(table) && r2 in Rows(table)
    requires r1.serviceName == r2.serviceName
    ensures r1 == r2
  {
  }
}
