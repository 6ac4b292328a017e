/** The concrete cases of the project's tests, stated about the model. */
module TestInstances {
  import opened PathTemplate
  import opened Camgrab

  /** A grabber made with only a URL has the documented defaults; one made
      with every keyword keeps what it was given. */
  method InitExample() returns (defaults: Settings, given: Settings)
    ensures defaults.url == "http://example.com" && defaults.every == 2.0
    ensures defaults.saveTo == "grabbed_images" && !defaults.sendToCallable
    ensures given.url == "http://example.com" && given.every == 0.5
    ensures given.saveTo == "somewhere_else" && given.sendToCallable
  {
    var g := new Grabber("http://example.com");
    defaults := g.Config();
    var h := new Grabber("http://example.com", every := 0.5, saveTo := "somewhere_else", sendToCallable := true);
    given := h.Config();
  }

  /** The instant 2017-01-02 12:13:14.987654. */
  predicate IsTestInstant(now: Instant) {
    now.year == 2017 && now.month == 1 && now.day == 2 &&
    now.hour == 12 && now.minute == 13 && now.second == 14 && now.microsecond == 987654
  }

  /** The fields of the test instant, rendered. */
  lemma TestInstantYear(now: Instant)
    requires IsTestInstant(now)
    ensures TokenValue("Y", now) == "2017"
  {
  }

  lemma TestInstantShortYear(now: Instant)
    requires IsTestInstant(now)
    ensures TokenValue("y", now) == "17"
  {
  }

  lemma TestInstantMonth(now: Instant)
    requires IsTestInstant(now)
    ensures TokenValue("m", now) == "01"
  {
  }

  lemma TestInstantDay(now: Instant)
    requires IsTestInstant(now)
    ensures TokenValue("d", now) == "02"
  {
  }

  lemma TestInstantDate(now: Instant)
    requires IsTestInstant(now)
    ensures TokenValue("y", now) == "17" && TokenValue("m", now) == "01" && TokenValue("d", now) == "02"
  {
    TestInstantShortYear(now);
    TestInstantMonth(now);
    TestInstantDay(now);
  }

  lemma TestInstantTime(now: Instant)
    requires IsTestInstant(now)
    ensures TokenValue("H", now) == "12" && TokenValue("M", now) == "13" && TokenValue("S", now) == "14"
  {
  }

  lemma TestInstantMicroseconds(now: Instant)
    requires IsTestInstant(now)
    ensures TokenValue("f", now) == "987654"
  {
    assert ZeroPad(9, 1) == "9";
    assert ZeroPad(98, 2) == "98";
    assert ZeroPad(987, 3) == ZeroPad(98, 2) + "7";
    assert ZeroPad(9876, 4) == ZeroPad(987, 3) + "6";
    assert ZeroPad(98765, 5) == ZeroPad(9876, 4) + "5";
    assert ZeroPad(987654, 6) == ZeroPad(98765, 5) + "4";
    assert "98" + "7" + "6" + "5" + "4" == "987654";
  }

  /** The directory half of the test template, `some_dir/{Y}-{m}-{d}/`. */
  lemma FormatPathExampleDirectory(now: Instant)
    requires IsTestInstant(now)
    ensures var t := "some_dir/" + Braced("Y") + "-" + Braced("m") + "-" + Braced("d") + "/";
            Format(t, now).Success? && Format(t, now).value == "some_dir/" + "2017" + "-" + "01" + "-" + "02" + "/"
  {
    TestInstantYear(now);
    TestInstantDate(now);
    FormatNoBraces("some_dir/", now);
    FormatNoBraces("-", now);
    FormatNoBraces("/", now);
    FormatField("Y", now);
    FormatField("m", now);
    FormatField("d", now);
    FormatJoin("some_dir/", Braced("Y"), now);
    FormatJoin("some_dir/" + Braced("Y"), "-", now);
    FormatJoin("some_dir/" + Braced("Y") + "-", Braced("m"), now);
    FormatJoin("some_dir/" + Braced("Y") + "-" + Braced("m"), "-", now);
    FormatJoin("some_dir/" + Braced("Y") + "-" + Braced("m") + "-", Braced("d"), now);
    FormatJoin("some_dir/" + Braced("Y") + "-" + Braced("m") + "-" + Braced("d"), "/", now);
  }

  /** The file half of the test template, `{y}{m}{d}-{H}{M}{S}-{f}.jpg`. */
  lemma FormatPathExampleFile(now: Instant)
    requires IsTestInstant(now)
    ensures var t := Braced("y") + Braced("m") + Braced("d") + "-" + Braced("H") + Braced("M") + Braced("S")
                     + "-" + Braced("f") + ".jpg";
            Format(t, now).Success? &&
            Format(t, now).value == "17" + "01" + "02" + "-" + "12" + "13" + "14" + "-" + "987654" + ".jpg"
  {
    TestInstantDate(now);
    TestInstantTime(now);
    TestInstantMicroseconds(now);
    FormatNoBraces("-", now);
    FormatNoBraces(".jpg", now);
    FormatField("y", now);
    FormatField("m", now);
    FormatField("d", now);
    FormatField("H", now);
    FormatField("M", now);
    FormatField("S", now);
    FormatField("f", now);
    var t := Braced("y");
    FormatJoin(t, Braced("m"), now);
    t := t + Braced("m");
    FormatJoin(t, Braced("d"), now);
    t := t + Braced("d");
    FormatJoin(t, "-", now);
    t := t + "-";
    FormatJoin(t, Braced("H"), now);
    t := t + Braced("H");
    FormatJoin(t, Braced("M"), now);
    t := t + Braced("M");
    FormatJoin(t, Braced("S"), now);
    t := t + Braced("S");
    FormatJoin(t, "-", now);
    t := t + "-";
    FormatJoin(t, Braced("f"), now);
    t := t + Braced("f");
    FormatJoin(t, ".jpg", now);
  }

  /** `format_path` on the test template `some_dir/{Y}-{m}-{d}/{y}{m}{d}-{H}{M}{S}-{f}.jpg`
      at 2017-01-02 12:13:14.987654 gives
      `some_dir/2017-01-02/170102-121314-987654.jpg`. */
  lemma FormatPathExample(now: Instant)
    requires IsTestInstant(now)
    ensures var t := ("some_dir/" + Braced("Y") + "-" + Braced("m") + "-" + Braced("d") + "/")
                     + (Braced("y") + Braced("m") + Braced("d") + "-" + Braced("H") + Braced("M") + Braced("S")
                        + "-" + Braced("f") + ".jpg");
            Format(t, now).Success? &&
            Format(t, now).value == ("some_dir/" + "2017" + "-" + "01" + "-" + "02" + "/")
                                    + ("17" + "01" + "02" + "-" + "12" + "13" + "14" + "-" + "987654" + ".jpg")
  {
    FormatPathExampleDirectory(now);
    FormatPathExampleFile(now);
    FormatJoin("some_dir/" + Braced("Y") + "-" + Braced("m") + "-" + Braced("d") + "/",
               Braced("y") + Braced("m") + Braced("d") + "-" + Braced("H") + Braced("M") + Braced("S")
               + "-" + Braced("f") + ".jpg", now);
  }

  /** `get_full_save_path` hands `format_path` the raw template
      `a_dir/{Y}{m}{d}/blah/{H}{M}{S}{f}.jpg` when `save_to` is `a_dir` and
      `save_filename` is `{Y}{m}{d}/blah/{H}{M}{S}{f}.jpg`. */
  lemma GetFullSavePathExample(s: Settings)
    requires s.saveTo == "a_dir" && s.saveFilename == "{Y}{m}{d}/blah/{H}{M}{S}{f}.jpg"
    ensures RawSavePath(s) == "a_dir/{Y}{m}{d}/blah/{H}{M}{S}{f}.jpg"
  {
  }

  /** `make_save_path_dirs` on `a_dir/somewhere/another_dir/final_file.jpg`
      creates `a_dir/somewhere/another_dir`. */
  lemma MakeSavePathDirsExample()
    ensures Dirname("a_dir/somewhere/another_dir" + "/" + "final_file.jpg") == "a_dir/somewhere/another_dir"
  {
    DirnameOfJoin("a_dir/somewhere/another_dir", "final_file.jpg");
  }
}
