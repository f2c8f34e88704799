/** The login form: three fields, a track chosen from a fixed list, and a
    submit that calls `onLogin` only when every field is filled in. */
module LoginPage {
  import opened Wrappers

  /** The tracks offered by the form's select. */
  datatype Track = DA | SDET | DVLPR

  /** The value the select stores for a track. */
  function TrackValue(t: Track): string
  {
    match t
    case DA => "DA"
    case SDET => "SDET"
    case DVLPR => "DVLPR"
  }

  /** The three track values are non-empty and tell the tracks apart. */
  lemma TrackValues()
    ensures forall t: Track :: TrackValue(t) != ""
    ensures forall t, u: Track :: TrackValue(t) == TrackValue(u) ==> t == u
    ensures {TrackValue(DA), TrackValue(SDET), TrackValue(DVLPR)} == {"DA", "SDET", "DVLPR"}
  {
  }

  /** The arguments of `onLogin`. */
  datatype LoginArgs = LoginArgs(name: string, track: string, batchCode: string)

  class LoginForm {
    var name: string
    var track: string
    var batchCode: string

    /** The form opens with all three fields empty. */
    constructor ()
      ensures name == "" && track == "" && batchCode == ""
    {
      name := "";
      track := "";
      batchCode := "";
    }

    method SetName(value: string)
      modifies this`name
      ensures name == value
    {
      name := value;
    }

    /** Choosing a track stores its value, which is never empty. */
    method SelectTrack(t: Track)
      modifies this`track
      ensures track == TrackValue(t) && track != ""
    {
      track := TrackValue(t);
    }

    method SetBatchCode(value: string)
      modifies this`batchCode
      ensures batchCode == value
    {
      batchCode := value;
    }

    /** `handleSubmit`: `onLogin(name, track, batchCode)` is called, with the
        fields unmodified and in that order, iff none of them is empty. */
    method HandleSubmit() returns (call: Option<LoginArgs>)
      ensures call.Some? <==> name != "" && track != "" && batchCode != ""
      ensures call.Some? ==> call.value == LoginArgs(name, track, batchCode)
    {
      if name != "" && track != "" && batchCode != "" {
        call := Some(LoginArgs(name, track, batchCode));
      } else {
        call := None;
      }
    }
  }

  /** Submitting the form as it opens does not log in. */
  method SubmitUntouchedForm() returns (call: Option<LoginArgs>)
    ensures call == None
  {
    var form := new LoginForm();
    call := form.HandleSubmit();
  }
}
