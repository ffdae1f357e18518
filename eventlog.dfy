/**
 * SystemEventLog.java: the one `Observer` of the system, an append-only text
 * log. Every notification is appended followed by a newline.
 */
module EventLog {
  import opened Basics

  /** The log after the messages were delivered in order: each one followed by a newline. */
  function Journal(messages: seq<string>): string
  {
    if messages == [] then "" else Journal(messages[..|messages| - 1]) + messages[|messages| - 1] + "\n"
  }

  /** The journal of a prefix of the messages is a prefix of the journal: nothing logged is ever lost. */
  lemma {:induction false} JournalPrefix(messages: seq<string>, k: nat)
    requires k <= |messages|
    ensures Journal(messages[..k]) <= Journal(messages)
  {
    if k < |messages| {
      var init := messages[..|messages| - 1];
      assert init[..k] == messages[..k];
      JournalPrefix(init, k);
    } else {
      assert messages[..k] == messages;
    }
  }

  /** Every message appears in the journal, in its place: the journal is the i-th prefix's journal, then message i. */
  lemma JournalAt(messages: seq<string>, i: nat)
    requires i < |messages|
    ensures Journal(messages[..i + 1]) == Journal(messages[..i]) + messages[i] + "\n"
  {
    assert messages[..i + 1][..i] == messages[..i];
  }

  /** `toString()`: the log between a fixed header and a closing quote and brace. */
  function Render(log: string): (s: string)
    ensures |s| == |log| + 24
    ensures s[22..|s| - 2] == log
  {
    "SystemEventLog{\n" + "log='\n" + log + "'" + "}"
  }

  /** Reading a rendering back: the log is what lies between the header and the trailer. */
  function Unrender(s: string): Option<string>
  {
    if |s| >= 24 && s[..22] == "SystemEventLog{\nlog='\n" && s[|s| - 2..] == "'}" then Some(s[22..|s| - 2])
    else None
  }

  /** The rendering loses nothing: the log can be read back from it. */
  lemma RenderUnrender(log: string)
    ensures Unrender(Render(log)) == Some(log)
  {
    var s := Render(log);
    assert s[..22] == "SystemEventLog{\nlog='\n";
    assert s[|s| - 2..] == "'}";
  }

  /** So no two different logs render alike. */
  lemma RenderInjective(log1: string, log2: string)
    requires Render(log1) == Render(log2)
    ensures log1 == log2
  {
    RenderUnrender(log1);
    RenderUnrender(log2);
  }

  /** `SystemEventLog`. */
  class SystemEventLog {
    var log: string

    /** The log starts empty. */
    constructor ()
      ensures log == ""
    {
      log := "";
    }

    function GetLog(): (r: string)
      reads this
      ensures r == log
    {
      log
    }

    /** `update(message)`: the message and a newline go at the end; what was there stays a prefix. */
    method Update(message: string)
      modifies this
      ensures log == old(log) + message + "\n"
      ensures old(log) <= log
    {
      log := log + message + "\n";
    }

    function ToString(): (s: string)
      reads this
      ensures Unrender(s) == Some(log)
    {
      RenderUnrender(log);
      Render(log)
    }
  }

  /** Delivering messages one after the other leaves their journal at the end of the log. */
  method Deliver(observer: SystemEventLog, messages: seq<string>)
    modifies observer
    ensures observer.log == old(observer.log) + Journal(messages)
  {
    for i := 0 to |messages|
      invariant observer.log == old(observer.log) + Journal(messages[..i])
    {
      JournalAt(messages, i);
      observer.Update(messages[i]);
    }
    assert messages[..|messages|] == messages;
  }

  /** The static `SystemEventLog.instance` field, held by an object the caller passes around. */
  class EventLogRegistry {
    var instance: SystemEventLog?

    constructor ()
      ensures instance == null
    {
      instance := null;
    }

    /** `getInstance()`: creates an empty log on the first call and returns that same log ever after. */
    method GetInstance() returns (l: SystemEventLog)
      modifies this
      ensures old(instance) == null ==> fresh(l) && l.log == ""
      ensures old(instance) != null ==> l == old(instance)
      ensures instance == l
    {
      if instance == null {
        instance := new SystemEventLog();
      }
      l := instance;
    }
  }
}
