/**
 * The parts of the host application the plugin writes to: the plugin's session flag
 * `twoFApass`, the session's `authCompleted` flag and its transient `redirect` key, the
 * failed-attempt tracker (counted, not stored) and the outgoing mail (the recovery codes
 * mailed, in order).
 */
module Host {
  import opened Wrappers
  import opened Php

  class Session {
    var twoFApass: bool
    var authCompleted: bool
    var redirect: Option<string>
    /** Entries `TrackService::add` has recorded in this model's lifetime. */
    var tracked: nat
    /** Recovery codes sent by mail, oldest first. */
    var mailed: seq<Code>

    constructor ()
      ensures !twoFApass && !authCompleted && redirect.None? && tracked == 0 && mailed == []
    {
      twoFApass := false;
      authCompleted := false;
      redirect := None;
      tracked := 0;
      mailed := [];
    }

    /** Sets the plugin's pass flag and the session's completion flag together. */
    method SetFlags(pass: bool)
      modifies this`twoFApass, this`authCompleted
      ensures twoFApass == pass && authCompleted == pass
    {
      twoFApass := pass;
      authCompleted := pass;
    }

    /** `addTracking()`: one more failed attempt on record. */
    method AddTracking()
      modifies this`tracked
      ensures tracked == old(tracked) + 1
    {
      tracked := tracked + 1;
    }

    method SetRedirect(url: string)
      modifies this`redirect
      ensures redirect == Some(url)
    {
      redirect := Some(url);
    }

    method Mail(code: Code)
      modifies this`mailed
      ensures mailed == old(mailed) + [code]
    {
      mailed := mailed + [code];
    }
  }
}
