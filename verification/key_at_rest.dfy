/** The phone's key at rest. */
module KeyAtRest {
  import opened Basics

  // android/.../KeyHolderKey.kt and WrappedKeyStore.kt: two files and a hardware
  // half, made in steps, any of which may fail, and any of which may be the last the
  // process does.

  datatype Name = WrappedFile | PublicFile | WrappedTmp | PublicTmp

  /** Keys and hardware keys are numbered as they are made. Torn: a file that was
      opened and not, or not wholly, written; it may be empty. */
  datatype Content = Torn | Wrapped(hardware: nat, key: nat) | Point(key: nat)

  type Disk = map<Name, Content>

  datatype FilesState = ABSENT | INCOMPLETE | COMPLETE | DAMAGED

  /** WrappedKeyStore.state. A torn file is taken for what is worst. */
  function State(d: Disk): FilesState {
    var hasWrapped, hasPublic := WrappedFile in d, PublicFile in d;
    if !hasWrapped && !hasPublic then ABSENT
    else if hasWrapped && !hasPublic then (if d[WrappedFile].Torn? then DAMAGED else INCOMPLETE)
    else if !hasWrapped then DAMAGED
    else if d[WrappedFile].Torn? || !d[PublicFile].Point? then DAMAGED
    else COMPLETE
  }

  /** A pair is whole: both files come from one save, and its hardware key is the
      one in the Keystore. */
  predicate Pair(d: Disk, hardware: Option<nat>) {
    && WrappedFile in d && PublicFile in d
    && d[WrappedFile].Wrapped? && d[PublicFile].Point? && d[WrappedFile].key == d[PublicFile].key
    && hardware == Some(d[WrappedFile].hardware)
  }

  /** The public file is there only as part of a whole pair; the wrapped file is
      never torn. */
  predicate Sound(d: Disk, hardware: Option<nat>) {
    && (PublicFile in d ==> Pair(d, hardware))
    && (WrappedFile in d ==> d[WrappedFile].Wrapped?)
  }

  lemma SoundIsNotDamaged(d: Disk, hardware: Option<nat>)
    requires Sound(d, hardware)
    ensures State(d) != DAMAGED
    ensures State(d) == COMPLETE <==> PublicFile in d
    ensures State(d) == COMPLETE ==> Pair(d, hardware)
  {
  }

  /** What the app refuses to repair: anything torn, and a public file with no wrapped
      one beside it. */
  lemma DamagedIff(d: Disk)
    ensures State(d) == DAMAGED
      <==> (WrappedFile in d && d[WrappedFile].Torn?) || (PublicFile in d && (WrappedFile !in d || !d[PublicFile].Point?))
    ensures State(d) == ABSENT <==> WrappedFile !in d && PublicFile !in d
    ensures State(d) == COMPLETE ==> WrappedFile in d && PublicFile in d
  {
  }

  datatype KeyPlan = Keep | Create | Stop

  /** keyPlan: the Keystore is trusted only when it says yes. */
  function PlanFor(hardwareHalf: bool, files: FilesState): KeyPlan {
    match files
    case DAMAGED => Stop
    case COMPLETE => if hardwareHalf then Keep else Stop
    case _ => Create
  }

  /** How one step goes. Fails is an ordinary failure, of the Keystore the false
      "no such key"; Refuses is the refusal to make a key that calls for a
      fingerprint first; Dies is the end of the process. */
  datatype Fate = Does | Fails | Refuses | Dies

  /** Of the deletion of two files, only the first is carried out. */
  predicate CutBetween(tape: seq<Fate>) {
    tape != [] && tape[0].Does? && (|tape| == 1 || !tape[1].Does?)
  }

  /** At least n steps go well, and nothing else is to come. */
  predicate Smooth(tape: seq<Fate>, n: int) {
    |tape| >= n && forall i :: 0 <= i < |tape| ==> tape[i].Does?
  }

  /** As many steps as ensureKey takes at the most if all goes well, and if one fails. */
  const STEPS := 17
  const MORE_STEPS := 27

  /** At least n steps are to come, of which one at the most fails, and none worse. */
  predicate Slips(tape: seq<Fate>, n: int) {
    && |tape| >= n && (forall i :: 0 <= i < |tape| ==> tape[i].Does? || tape[i].Fails?)
    && forall i, j :: 0 <= i < j < |tape| ==> tape[i].Does? || tape[j].Does?
  }

  predicate NoFiles(d: Disk) {
    WrappedFile !in d && PublicFile !in d && WrappedTmp !in d && PublicTmp !in d
  }

  /** Nothing of the key is left, neither files nor the hardware half. */
  predicate Nothing(d: Disk, hardware: Option<nat>) {
    NoFiles(d) && hardware.None?
  }

  datatype Ran = Fine | Threw | ThrewRefusal | Dead

  class Phone {
    var disk: Disk
    var hardware: Option<nat>
    var made: nat
    var tape: seq<Fate>
    /** The hardware key that was last used once and answered. */
    ghost var proven: Option<nat>

    /** A phone the app was just installed on. */
    constructor ()
      ensures disk == map[] && hardware == None && tape == []
    {
      disk, hardware, made, tape, proven := map[], None, 0, [], None;
    }

    /** The fate of the next step; the last on the tape is followed by death. */
    method Next() returns (f: Fate)
      modifies this`tape
      ensures f == if old(tape) == [] then Dies else old(tape)[0]
      ensures tape == if f.Dies? then [] else old(tape)[1..]
    {
      if tape == [] {
        return Dies;
      }
      f := tape[0];
      tape := if f.Dies? then [] else tape[1..];
    }

    /** Never yes without a key; no, perhaps, with one. */
    method ContainsAlias() returns (r: Ran, yes: bool)
      modifies this`tape
      ensures old(tape) == [] || old(tape)[0].Dies? ==> r.Dead? && !yes && tape == []
      ensures old(tape) != [] && !old(tape)[0].Dies? ==> r.Fine? && tape == old(tape)[1..]
      ensures yes <==> old(tape) != [] && old(tape)[0].Does? && hardware.Some?
    {
      var f := Next();
      if f.Dies? {
        return Dead, false;
      }
      return Fine, f.Does? && hardware.Some?;
    }

    method DeleteEntryIfThere() returns (r: Ran)
      modifies this`tape, this`hardware
      ensures hardware == old(hardware) || hardware == None
      ensures !r.ThrewRefusal?
      ensures Smooth(old(tape), 2) ==> r.Fine? && hardware.None? && Smooth(tape, |old(tape)| - 2)
      ensures Slips(old(tape), 2) ==> !r.Dead? && Slips(tape, |old(tape)| - 2)
      ensures Slips(old(tape), 2) ==> (r.Fine? && hardware.None?) || (Smooth(tape, |old(tape)| - 2) && hardware == old(hardware))
    {
      var yes;
      r, yes := ContainsAlias();
      if r.Fine? && yes {
        var f := Next();
        if f.Does? {
          hardware := None;
        } else {
          r := if f.Dies? then Dead else Threw;
        }
      }
    }

    /** File.delete, whose failure nobody looks at. */
    method DeleteFile(name: Name) returns (r: Ran)
      modifies this`tape, this`disk
      ensures old(tape) == [] || old(tape)[0].Dies? ==> r.Dead? && disk == old(disk) && tape == []
      ensures old(tape) != [] && !old(tape)[0].Dies? ==> r.Fine? && tape == old(tape)[1..]
      ensures old(tape) != [] && !old(tape)[0].Dies? ==> disk == if old(tape)[0].Does? then old(disk) - {name} else old(disk)
    {
      var f := Next();
      if f.Dies? {
        return Dead;
      }
      if f.Does? {
        disk := disk - {name};
      }
      return Fine;
    }

    /** WrappedKeyStore.delete: the wrapped file first, so a pair is left damaged
        exactly when that one goes and the other does not. */
    method DeleteFiles() returns (r: Ran)
      modifies this`tape, this`disk
      ensures forall n :: n in disk ==> n in old(disk) && disk[n] == old(disk)[n]
      ensures State(old(disk)) == COMPLETE ==> (State(disk) == DAMAGED <==> CutBetween(old(tape)))
      ensures r.Fine? || r.Dead?
      ensures Smooth(old(tape), 4) ==> r.Fine? && NoFiles(disk) && Smooth(tape, |old(tape)| - 4)
      ensures Slips(old(tape), 4) ==> r.Fine? && Slips(tape, |old(tape)| - 4) && (NoFiles(disk) || Smooth(tape, |old(tape)| - 4))
    {
      r := DeleteFile(WrappedFile);
      if !r.Fine? { return; }
      r := DeleteFile(PublicFile);
      if !r.Fine? { return; }
      r := DeleteFile(WrappedTmp);
      if !r.Fine? { return; }
      r := DeleteFile(PublicTmp);
    }

    /** KeyHolderKey.delete: the hardware half first. */
    method Delete() returns (r: Ran)
      modifies this`tape, this`disk, this`hardware
      ensures forall n :: n in disk ==> n in old(disk) && disk[n] == old(disk)[n]
      ensures hardware == old(hardware) || hardware == None
      ensures !r.ThrewRefusal?
      ensures Smooth(old(tape), 6) ==> r.Fine? && Nothing(disk, hardware) && Smooth(tape, |old(tape)| - 6)
      ensures Slips(old(tape), 6) ==> r.Fine? || (r.Threw? && disk == old(disk) && hardware == old(hardware))
      ensures Slips(old(tape), 6) && r.Fine? ==> Slips(tape, |old(tape)| - 6)
    {
      r := DeleteEntryIfThere();
      if r.Fine? {
        r := DeleteFiles();
      }
    }

    /** Through a temporary file, synced, and a rename. */
    method Replace(target: Name, content: Content) returns (r: Ran)
      requires target == WrappedFile || target == PublicFile
      modifies this`tape, this`disk
      ensures !r.ThrewRefusal?
      ensures r.Fine? ==> target in disk && disk[target] == content
      ensures !r.Fine? ==> (target in disk <==> target in old(disk)) && (target in disk ==> disk[target] == old(disk)[target])
      ensures forall n :: n == WrappedFile || n == PublicFile ==> n != target ==>
        (n in disk <==> n in old(disk)) && (n in disk ==> disk[n] == old(disk)[n])
      ensures Smooth(old(tape), 3) ==> r.Fine? && Smooth(tape, |old(tape)| - 3)
      ensures Slips(old(tape), 3) ==> (r.Fine? && Slips(tape, |old(tape)| - 3)) || (r.Threw? && Smooth(tape, |old(tape)| - 3))
    {
      var temporary := if target == WrappedFile then WrappedTmp else PublicTmp;
      var f := Next();
      if !f.Does? {
        return if f.Dies? then Dead else Threw;
      }
      disk := disk[temporary := Torn];
      f := Next();
      if !f.Does? {
        return if f.Dies? then Dead else Threw;
      }
      disk := disk[temporary := content];
      f := Next();
      if !f.Does? {
        return if f.Dies? then Dead else Threw;
      }
      disk := (disk - {temporary})[target := content];
      return Fine;
    }

    /** A new hardware key takes the alias, whatever was under it. */
    method Generate() returns (f: Fate)
      modifies this`tape, this`hardware, this`made
      ensures made >= old(made)
      ensures f.Does? ==> hardware == Some(old(made)) && made == old(made) + 1
      ensures !f.Does? ==> hardware == old(hardware)
      ensures old(tape) == [] ==> f.Dies?
      ensures old(tape) != [] ==> f == old(tape)[0] && tape == if f.Dies? then [] else old(tape)[1..]
    {
      f := Next();
      if f.Does? {
        hardware, made := Some(made), made + 1;
      }
    }

    /** canBeUsed: the key just made is used once. */
    method CanBeUsed() returns (f: Fate)
      modifies this`tape, this`proven
      ensures f == if old(tape) == [] then Dies else old(tape)[0]
      ensures tape == if f.Dies? then [] else old(tape)[1..]
      ensures proven == if f.Does? then hardware else old(proven)
    {
      f := Next();
      if f.Does? {
        proven := hardware;
      }
    }

    /** generateWrappingKey: StrongBox, then the TEE, each tried once. What it comes back
        with is a new key that has been used; one failure is made up for. */
    method GenerateWrappingKey() returns (r: Ran)
      modifies this`tape, this`hardware, this`made, this`proven
      ensures r.Fine? ==> hardware.Some? && proven == hardware && hardware.value >= old(made)
      ensures old(tape) != [] && old(tape)[0].Refuses? ==> r.ThrewRefusal? && tape == old(tape)[1..]
      ensures Smooth(old(tape), 2) ==> r.Fine? && Smooth(tape, |old(tape)| - 2)
      ensures Slips(old(tape), 6) ==> r.Fine? && Slips(tape, |old(tape)| - 6)
    {
      var f := Generate();
      if f.Dies? || f.Refuses? {
        return if f.Dies? then Dead else ThrewRefusal;
      }
      if f.Does? {
        f := CanBeUsed();
        if f.Dies? { return Dead; }
        if f.Does? { return Fine; }
      }
      r := DeleteEntryIfThere();
      if !r.Fine? { return; }
      f := Generate();
      if !f.Does? {
        return if f.Dies? then Dead else if f.Refuses? then ThrewRefusal else Threw;
      }
      f := CanBeUsed();
      if f.Dies? { return Dead; }
      if !f.Does? {
        r := DeleteEntryIfThere();
        return if r.Dead? then Dead else Threw;
      }
      return Fine;
    }

    method CreateKey() returns (r: Ran)
      requires PublicFile !in disk
      modifies this
      ensures Sound(old(disk), old(hardware)) ==> Sound(disk, hardware)
      ensures PublicFile in disk ==> Pair(disk, hardware)
      ensures r.Fine? ==> PublicFile in disk
      ensures r.Fine? ==> proven == hardware
      ensures PublicFile in disk ==> proven == hardware
      ensures Smooth(old(tape), 9) ==> r.Fine? && Smooth(tape, |old(tape)| - 9)
      ensures old(tape) != [] && old(tape)[0].Refuses? && Smooth(old(tape)[1..], 6) ==> r.ThrewRefusal? && Nothing(disk, hardware)
      ensures Slips(old(tape), 19) ==> (r.Fine? && Slips(tape, |old(tape)| - 13)) || (r.Threw? && Nothing(disk, hardware))
    {
      r := GenerateWrappingKey();
      if r.ThrewRefusal? {
        r := Delete();
        return if r.Dead? then Dead else ThrewRefusal;
      }
      if !r.Fine? { return; }
      r := WrapAndSave();
      if r.Threw? || r.ThrewRefusal? {
        // The rename of the public file is the last thing that can fail.
        var d := Delete();
        r := if d.Dead? then Dead else Threw;
      }
    }

    method WrapAndSave() returns (r: Ran)
      requires PublicFile !in disk && hardware.Some?
      modifies this
      ensures Sound(old(disk), old(hardware)) ==> Sound(disk, hardware)
      ensures PublicFile in disk ==> Pair(disk, hardware)
      ensures r.Fine? <==> PublicFile in disk
      ensures hardware == old(hardware) && proven == old(proven)
      ensures Smooth(old(tape), 7) ==> r.Fine? && Smooth(tape, |old(tape)| - 7)
      ensures Slips(old(tape), 7) ==> (r.Fine? && Slips(tape, |old(tape)| - 7)) || (r.Threw? && Smooth(tape, |old(tape)| - 7))
    {
      var f := Next();
      if !f.Does? {
        return if f.Dies? then Dead else Threw;
      }
      var key := made;
      made := made + 1;
      r := Replace(WrappedFile, Wrapped(hardware.value, key));
      if r.Fine? {
        r := Replace(PublicFile, Point(key));
      }
    }

    /** What one ordinary failure may come to. */
    predicate LeavesNoHalf(r: Ran, was: Disk, hardwareWas: Option<nat>)
      reads this
    {
      || r.Fine?
      || (r.Threw? && disk == was && hardware == hardwareWas)
      || (r.Threw? && Nothing(disk, hardware))
      || (r.Threw? && State(disk) == COMPLETE && hardware.Some?)
    }

    /** ensureKey: once the public file exists, nothing on the phone is touched,
        whole or damaged. */
    method EnsureKey() returns (r: Ran)
      modifies this
      ensures Sound(old(disk), old(hardware)) ==> Sound(disk, hardware)
      ensures PublicFile in old(disk) ==> disk == old(disk) && hardware == old(hardware)
      ensures State(old(disk)) == DAMAGED ==> !r.Fine? && disk == old(disk) && hardware == old(hardware)
      ensures r.Fine? ==> State(disk) == COMPLETE && hardware.Some?
      ensures PublicFile in disk && PublicFile !in old(disk) ==> proven == hardware
      ensures PublicFile in old(disk) ==> proven == old(proven)
      ensures Sound(old(disk), old(hardware)) && Slips(old(tape), MORE_STEPS) ==> LeavesNoHalf(r, old(disk), old(hardware))
      ensures Sound(old(disk), old(hardware)) && Smooth(old(tape), STEPS) ==> r.Fine?
    {
      var yes;
      r, yes := ContainsAlias();
      if !r.Fine? { return; }
      match PlanFor(yes, State(disk))
      case Stop => return Threw;
      case Create =>
        r := Delete();
        if !r.Fine? { return; }
        r := CreateKey();
        if !r.Fine? { return; }
      case Keep =>
      var f := Next();
      r := if f.Does? then Fine else if f.Dies? then Dead else Threw;
    }
  }

  /** From an empty phone, through any runs of ensureKey, each cut off anywhere and
      with any false answers of the Keystore on the way: the files are never
      damaged, and a complete pair is of one save under the hardware key that is
      still there. And nothing that happened keeps a later run that goes well from
      ending with a complete pair. */
  method AnyRunsOfEnsureKey(tapes: seq<seq<Fate>>) returns (disk: Disk, hardware: Option<nat>, last: Ran)
    ensures Sound(disk, hardware)
    ensures State(disk) != DAMAGED && (State(disk) == COMPLETE ==> Pair(disk, hardware))
    ensures tapes == [] ==> disk == map[] && hardware == None
    ensures tapes != [] && last.Fine? ==> State(disk) == COMPLETE
    ensures tapes != [] && Smooth(tapes[|tapes| - 1], STEPS) ==> last.Fine?
  {
    var phone := new Phone();
    last := Threw;
    for i := 0 to |tapes|
      invariant Sound(phone.disk, phone.hardware)
      invariant i == 0 ==> phone.disk == map[] && phone.hardware == None
      invariant i > 0 && last.Fine? ==> State(phone.disk) == COMPLETE
      invariant i > 0 && Smooth(tapes[i - 1], STEPS) ==> last.Fine?
    {
      phone.tape := tapes[i];
      last := phone.EnsureKey();
    }
    SoundIsNotDamaged(phone.disk, phone.hardware);
    return phone.disk, phone.hardware, last;
  }
}
