/** The audit trail written by the item and customer create routes
    (`createSystemLog`): who did it, and a best-effort append to the
    `system_log` table whose failure is caught and never reaches the caller. */
module SystemLog {
  import opened Optional
  import opened Text

  /** One `system_log` row. The `log_datetime` column is filled by the
      database clock and is not part of the model. */
  datatype LogEntry = LogEntry(description: string, createdBy: string)

  /** `session?.user?.name || 'System'`: the signed-in user's name, or the
      literal `System` when there is no session, no user, no name or an
      empty name. `sessionName` is `None` whenever the chain yields undefined. */
  function Actor(sessionName: Option<string>): (actor: string)
    ensures actor != ""
    ensures actor == "System" || sessionName == Some(actor)
    ensures sessionName.Some? && sessionName.value != "" ==> actor == sessionName.value
    ensures sessionName == None || sessionName == Some("") ==> actor == "System"
  {
    match sessionName
    case Some(name) => if name != "" then name else "System"
    case None => "System"
  }

  /** The audit text of a created row, `<prefix><subject> (ID: <id>)`, as
      the item and customer routes format it: the subject sits right after
      the prefix and the id's decimal digits right before the closing `)`. */
  function CreatedText(prefix: string, subject: string, id: nat): (text: string)
    ensures StartsWith(text, prefix)
    ensures |prefix| + |subject| <= |text| && text[|prefix|..|prefix| + |subject|] == subject
    ensures EndsWith(text, ")")
    ensures var digits := NatToString(id);
            |digits| + 1 <= |text| && text[|text| - 1 - |digits|..|text| - 1] == digits
  {
    prefix + subject + " (ID: " + NatToString(id) + ")"
  }

  /** The id can be read back from the audit text. */
  lemma CreatedTextNamesId(prefix: string, subject: string, id: nat)
    ensures var text := CreatedText(prefix, subject, id);
            var digits := NatToString(id);
            |digits| + 1 <= |text| && DecimalValue(text[|text| - 1 - |digits|..|text| - 1]) == id
  {
    DecimalValueOfNatToString(id);
  }

  /** Rows created with different ids get different audit texts, even when
      their subjects are equal. */
  lemma CreatedTextDistinguishesIds(prefix: string, subject: string, id1: nat, id2: nat)
    requires id1 != id2
    ensures CreatedText(prefix, subject, id1) != CreatedText(prefix, subject, id2)
  {
    var t1 := CreatedText(prefix, subject, id1);
    var t2 := CreatedText(prefix, subject, id2);
    var p := prefix + subject + " (ID: ";
    NatToStringInjective(id1, id2);
    if t1 == t2 {
      assert t1[|p|..|t1| - 1] == NatToString(id1);
      assert t2[|p|..|t2| - 1] == NatToString(id2);
    }
  }

  /** The `system_log` table, append-only. */
  class LogStore {
    var entries: seq<LogEntry>

    constructor ()
      ensures entries == []
    {
      entries := [];
    }

    /** `createSystemLog`: one INSERT inside a try/catch. `writeSucceeds`
        is the outcome of the INSERT; when it fails the error is swallowed,
        the table is unchanged and the method still returns normally. */
    method CreateSystemLog(description: string, createdBy: string, writeSucceeds: bool)
      modifies this
      ensures writeSucceeds ==> entries == old(entries) + [LogEntry(description, createdBy)]
      ensures !writeSucceeds ==> entries == old(entries)
    {
      if writeSucceeds {
        entries := entries + [LogEntry(description, createdBy)];
      }
    }
  }
}
