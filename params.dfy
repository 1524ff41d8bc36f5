/**
 * normalize_param: turns a Dialogflow CX slot value into the value a reply shows.
 * A name object gives its "original" (else its "name") unchanged, a time-of-day
 * object its HH:MM rendering, anything else its str().
 */
module Params {
  import opened Numerals
  import opened Values

  /** The value in a dict entry the caller knows is there. */
  function Field(entries: seq<Entry>, key: string): Value
    requires Find(entries, key).Some?
  {
    Find(entries, key).value
  }

  /** A dict the time branch handles: both clock fields, and neither name field. */
  predicate IsClockObject(entries: seq<Entry>)
  {
    && Find(entries, "original").None?
    && Find(entries, "name").None?
    && Find(entries, "hours").Some?
    && Find(entries, "minutes").Some?
  }

  /** normalize_param(param); the int() of a clock field may raise. */
  function NormalizeParam(param: Value): Result<Value>
  {
    match param
    case PDict(entries) =>
      if Find(entries, "original").Some? then Ok(Field(entries, "original"))
      else if Find(entries, "name").Some? then Ok(Field(entries, "name"))
      else if Find(entries, "hours").Some? && Find(entries, "minutes").Some? then
        var hours :- ToInt(Field(entries, "hours"));
        var minutes :- ToInt(Field(entries, "minutes"));
        Ok(PStr(ZeroPad2(hours) + ":" + ZeroPad2(minutes)))
      else Ok(PStr(Str(param)))
    case _ => Ok(PStr(Str(param)))
  }

  /** An "original" field wins over everything else in the dict and comes back verbatim. */
  lemma OriginalWins(entries: seq<Entry>)
    requires Find(entries, "original").Some?
    ensures NormalizeParam(PDict(entries)) == Ok(Field(entries, "original"))
  {
  }

  /** Without "original", a "name" field comes back verbatim, whatever clock fields there are. */
  lemma NameWithoutOriginal(entries: seq<Entry>)
    requires Find(entries, "original").None? && Find(entries, "name").Some?
    ensures NormalizeParam(PDict(entries)) == Ok(Field(entries, "name"))
  {
  }

  /**
   * A clock object whose fields are whole numbers from 0 to 99 renders as five characters
   * HH:MM whose two-digit halves read back as the hours and the minutes.
   */
  lemma ClockObjectRendersHHMM(entries: seq<Entry>, h: int, m: int)
    requires IsClockObject(entries)
    requires ToInt(Field(entries, "hours")) == Ok(h) && ToInt(Field(entries, "minutes")) == Ok(m)
    requires 0 <= h < 100 && 0 <= m < 100
    ensures NormalizeParam(PDict(entries)).Ok?
    ensures var r := NormalizeParam(PDict(entries)).value;
      && r.PStr? && |r.s| == 5 && r.s[2] == ':'
      && AllDigits(r.s[..2]) && AllDigits(r.s[3..])
      && DigitsValue(r.s[..2]) == h && DigitsValue(r.s[3..]) == m
  {
    ZeroPad2TwoDigits(h);
    ZeroPad2TwoDigits(m);
    var s := ZeroPad2(h) + ":" + ZeroPad2(m);
    assert NormalizeParam(PDict(entries)) == Ok(PStr(s));
    assert s[..2] == ZeroPad2(h);
    assert s[3..] == ZeroPad2(m);
  }

  /** {hours: 9, minutes: 5} gives "09:05". */
  lemma NineFive()
    ensures NormalizeParam(PDict([Entry("hours", PInt(9)), Entry("minutes", PInt(5))])) == Ok(PStr("09:05"))
  {
    var es := [Entry("hours", PInt(9)), Entry("minutes", PInt(5))];
    assert Find(es, "original") == None && Find(es, "name") == None;
    assert Find(es, "hours") == Some(PInt(9));
    assert Find(es, "minutes") == Some(PInt(5));
    assert ToInt(PInt(9)) == Ok(9) && ToInt(PInt(5)) == Ok(5);
    assert NormalizeParam(PDict(es)) == Ok(PStr(ZeroPad2(9) + ":" + ZeroPad2(5)));
    assert ZeroPad2(9) == "09" && ZeroPad2(5) == "05";
    assert "09" + ":" + "05" == "09:05";
  }

  /** {hours: 0, minutes: 0} gives "00:00". */
  lemma Midnight()
    ensures NormalizeParam(PDict([Entry("hours", PInt(0)), Entry("minutes", PInt(0))])) == Ok(PStr("00:00"))
  {
    var es := [Entry("hours", PInt(0)), Entry("minutes", PInt(0))];
    assert Find(es, "original") == None && Find(es, "name") == None;
    assert Find(es, "hours") == Some(PInt(0));
    assert Find(es, "minutes") == Some(PInt(0));
    assert ToInt(PInt(0)) == Ok(0) && ToInt(PInt(0)) == Ok(0);
    assert NormalizeParam(PDict(es)) == Ok(PStr(ZeroPad2(0) + ":" + ZeroPad2(0)));
    assert ZeroPad2(0) == "00";
    assert "00" + ":" + "00" == "00:00";
  }

  /** Dialogflow sends its clock fields as floats; {hours: 14.0, minutes: 30.0} gives "14:30". */
  lemma HalfPastTwoAsFloats()
    ensures NormalizeParam(PDict([Entry("hours", PFloat(1400)), Entry("minutes", PFloat(3000))])) == Ok(PStr("14:30"))
  {
    var es := [Entry("hours", PFloat(1400)), Entry("minutes", PFloat(3000))];
    assert Find(es, "original") == None && Find(es, "name") == None;
    assert Find(es, "hours") == Some(PFloat(1400));
    assert Find(es, "minutes") == Some(PFloat(3000));
    assert ToInt(PFloat(1400)) == Ok(14) && ToInt(PFloat(3000)) == Ok(30);
    assert NormalizeParam(PDict(es)) == Ok(PStr(ZeroPad2(14) + ":" + ZeroPad2(30)));
    assert ZeroPad2(14) == "14" && ZeroPad2(30) == "30";
    assert "14" + ":" + "30" == "14:30";
  }

  /** A dict with only one clock field (and no name field) falls through to str() of the whole dict. */
  lemma HalfClockFallsThrough(entries: seq<Entry>)
    requires Find(entries, "original").None? && Find(entries, "name").None?
    requires Find(entries, "hours").None? || Find(entries, "minutes").None?
    ensures NormalizeParam(PDict(entries)) == Ok(PStr(Str(PDict(entries))))
  {
  }

  /** A value that is not a dict (a plain string among them) becomes its str(). */
  lemma NonDictIsStr(param: Value)
    requires !param.PDict?
    ensures NormalizeParam(param) == Ok(PStr(Str(param)))
    ensures param.PStr? ==> NormalizeParam(param) == Ok(param)
  {
  }

  /** A missing parameter arrives as None and shows as "None". */
  lemma MissingParameterShowsNone()
    ensures NormalizeParam(PNone) == Ok(PStr("None"))
  {
  }

  /** normalize_param raises exactly when a clock object has a field int() rejects. */
  lemma NormalizeFailsOnlyOnBadClock(param: Value)
    ensures NormalizeParam(param).Err? <==>
      && param.PDict?
      && IsClockObject(param.entries)
      && (ToInt(Field(param.entries, "hours")).Err? || ToInt(Field(param.entries, "minutes")).Err?)
  {
  }
}
