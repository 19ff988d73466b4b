/** The agent's numbering state: what it remembers while running, and what identity.json keeps across restarts. */
module AgentIdentity {
  import opened Wrappers
  import opened SpoolNames

  datatype IdentityRecord = IdentityRecord(
    bootId: string,
    lastSequence: nat,
    acknowledgedBootId: string,
    acknowledgedSequence: nat)

  const BLANK: IdentityRecord := IdentityRecord("", 0, "", 0)

  datatype IdentityError = InvalidBoot

  /** Numbering starts over on a new boot and counts up within one. */
  function Issue(r: IdentityRecord, bootId: string): IdentityRecord {
    if r.bootId != bootId then r.(bootId := bootId, lastSequence := 1)
    else r.(lastSequence := r.lastSequence + 1)
  }

  /** Never number below what is already spooled for this boot. */
  function Raise(r: IdentityRecord, bootId: string, sequence: nat): IdentityRecord {
    if r.bootId != bootId then r.(bootId := bootId, lastSequence := sequence)
    else if sequence > r.lastSequence then r.(lastSequence := sequence)
    else r
  }

  function Acknowledged(r: IdentityRecord, bootId: string, through: nat): IdentityRecord {
    if r.acknowledgedBootId != bootId then r.(acknowledgedBootId := bootId, acknowledgedSequence := through)
    else if through > r.acknowledgedSequence then r.(acknowledgedSequence := through)
    else r
  }

  /** What numbering resumes from after a restart with this file and this highest spooled sequence. */
  function ResumePoint(file: IdentityRecord, bootId: string, highest: nat): nat {
    if file.bootId == bootId && file.lastSequence > highest then file.lastSequence else highest
  }

  /** The sequences issued after a restart: the k-th one is k past the resume point. */
  function IssueMany(r: IdentityRecord, bootId: string, k: nat): IdentityRecord {
    if k == 0 then r else Issue(IssueMany(r, bootId, k - 1), bootId)
  }

  lemma {:induction false} IssuedAfterRestart(file: IdentityRecord, bootId: string, highest: nat, k: nat)
    ensures var r := IssueMany(Raise(file, bootId, highest), bootId, k);
            r.bootId == bootId && r.lastSequence == ResumePoint(file, bootId, highest) + k
  {
    if k > 0 {
      IssuedAfterRestart(file, bootId, highest, k - 1);
    }
  }

  /** A sequence used before the restart is issued again exactly when neither the file nor the spool reaches it. */
  lemma {:induction false} ReissuedExactly(file: IdentityRecord, bootId: string, highest: nat, used: nat)
    requires used > 0
    ensures (exists k: nat :: k > 0 && IssueMany(Raise(file, bootId, highest), bootId, k).lastSequence == used)
      <==> !((file.bootId == bootId && used <= file.lastSequence) || used <= highest)
  {
    var base := ResumePoint(file, bootId, highest);
    if used > base {
      IssuedAfterRestart(file, bootId, highest, used - base);
    }
    if k: nat :| k > 0 && IssueMany(Raise(file, bootId, highest), bootId, k).lastSequence == used {
      IssuedAfterRestart(file, bootId, highest, k);
    }
  }

  // ----- Acknowledgements -----

  function AcknowledgedAll(r: IdentityRecord, bootId: string, acks: seq<nat>): IdentityRecord {
    if acks == [] then r
    else Acknowledged(AcknowledgedAll(r, bootId, acks[..|acks| - 1]), bootId, acks[|acks| - 1])
  }

  /**
   * After any acknowledgements of one boot, in whatever order they arrive, the position kept is the largest of them and
   * of what was kept for that boot before.
   */
  lemma {:induction false} AcknowledgedIsMaximum(r: IdentityRecord, bootId: string, acks: seq<nat>)
    requires acks != []
    ensures var s := AcknowledgedAll(r, bootId, acks);
            && s.acknowledgedBootId == bootId && s.bootId == r.bootId && s.lastSequence == r.lastSequence
            && (forall i :: 0 <= i < |acks| ==> acks[i] <= s.acknowledgedSequence)
            && (r.acknowledgedBootId == bootId ==> r.acknowledgedSequence <= s.acknowledgedSequence)
            && (s.acknowledgedSequence in acks
                || (r.acknowledgedBootId == bootId && s.acknowledgedSequence == r.acknowledgedSequence))
  {
    var n := |acks| - 1;
    assert acks == acks[..n] + [acks[n]];
    if n > 0 {
      AcknowledgedIsMaximum(r, bootId, acks[..n]);
    }
  }

  class Identity {
    var bootId: string
    var lastSequence: nat
    var acknowledgedBootId: string
    var acknowledgedSequence: nat
    var file: IdentityRecord    // identity.json

    ghost function Record(): IdentityRecord
      reads this
    {
      IdentityRecord(bootId, lastSequence, acknowledgedBootId, acknowledgedSequence)
    }

    /** Load what identity.json holds; nothing else survives a restart. */
    constructor Load(stored: IdentityRecord)
      ensures Record() == stored && file == stored
    {
      bootId, lastSequence := stored.bootId, stored.lastSequence;
      acknowledgedBootId, acknowledgedSequence := stored.acknowledgedBootId, stored.acknowledgedSequence;
      file := stored;
    }

    method Save()
      modifies this`file
      ensures file == Record()
    {
      file := IdentityRecord(bootId, lastSequence, acknowledgedBootId, acknowledgedSequence);
    }

    method NextSequence(boot: string) returns (sequence: nat)
      modifies this`bootId, this`lastSequence
      ensures Record() == Issue(old(Record()), boot)
      ensures sequence == lastSequence && bootId == boot
      ensures sequence == if old(bootId) == boot then old(lastSequence) + 1 else 1
    {
      if bootId != boot {
        bootId := boot;
        lastSequence := 0;
      }
      lastSequence := lastSequence + 1;
      sequence := lastSequence;
    }

    method PersistSequence()
      modifies this`file
      ensures file == Record()
    {
      Save();
    }

    method EnsureSequenceAtLeast(boot: string, sequence: nat) returns (r: Result<(), IdentityError>)
      modifies this
      ensures r.Err? <==> Sanitize(boot) == ""
      ensures r.Err? ==> Record() == old(Record()) && file == old(file)
      ensures r.Ok? ==> Record() == Raise(old(Record()), Sanitize(boot), sequence)
      ensures r.Ok? ==> bootId == Sanitize(boot)
      ensures r.Ok? && old(bootId) != bootId ==> lastSequence == sequence
      ensures r.Ok? && old(bootId) == bootId ==>
                old(lastSequence) <= lastSequence && sequence <= lastSequence
                && (lastSequence == old(lastSequence) || lastSequence == sequence)
      ensures acknowledgedBootId == old(acknowledgedBootId) && acknowledgedSequence == old(acknowledgedSequence)
      ensures r.Ok? ==> file == if Record() == old(Record()) then old(file) else Record()
    {
      var clean := Sanitize(boot);
      if clean == "" {
        return Err(InvalidBoot);
      }
      var changed := false;
      if bootId != clean {
        bootId, lastSequence := clean, sequence;
        changed := true;
      } else if sequence > lastSequence {
        lastSequence := sequence;
        changed := true;
      }
      if changed {
        Save();
      }
      r := Ok(());
    }

    method Acknowledge(boot: string, through: nat) returns (r: Result<(), IdentityError>)
      modifies this
      ensures r.Err? <==> Sanitize(boot) == ""
      ensures r.Err? ==> Record() == old(Record()) && file == old(file)
      ensures r.Ok? ==> Record() == Acknowledged(old(Record()), Sanitize(boot), through) && file == Record()
      // A new boot starts over; within one boot the larger position stays, also when an older one arrives late.
      ensures r.Ok? ==> acknowledgedBootId == Sanitize(boot)
      ensures r.Ok? && old(acknowledgedBootId) != acknowledgedBootId ==> acknowledgedSequence == through
      ensures r.Ok? && old(acknowledgedBootId) == acknowledgedBootId ==>
                old(acknowledgedSequence) <= acknowledgedSequence && through <= acknowledgedSequence
                && (acknowledgedSequence == old(acknowledgedSequence) || acknowledgedSequence == through)
      ensures bootId == old(bootId) && lastSequence == old(lastSequence)
    {
      var clean := Sanitize(boot);
      if clean == "" {
        return Err(InvalidBoot);
      }
      if acknowledgedBootId != clean {
        acknowledgedBootId, acknowledgedSequence := clean, through;
      } else if through > acknowledgedSequence {
        acknowledgedSequence := through;
      }
      Save();
      r := Ok(());
    }
  }
}
