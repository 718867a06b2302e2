/**
 * The tuner reset filter `reset_dvbt` (app/decoder.py, lines 20-28).
 *
 * The output of `lsusb` is split into lines on "\n"; each line is split on whitespace.
 * A line triggers a reset when it has more than six tokens, contains "Realtek", and its
 * token 5 is "2832" or "2838"; the reset addresses `/dev/bus/usb/<token 1>/<token 3
 * without its last character>`.
 */
module UsbReset {
  import opened Text

  const DeviceRoot: string := "/dev/bus/usb/"
  const Vendor: string := "Realtek"

  /** The product identifiers of the supported RTL283x tuners. */
  predicate KnownProduct(id: string)
  {
    id == "2832" || id == "2838"
  }

  /** Whether `reset_dvbt` issues a reset for this `lsusb` line. */
  predicate Triggers(line: string)
  {
    var parts := Words(line);
    |parts| > 6 && Contains(line, Vendor) && KnownProduct(parts[5])
  }

  /** The device node a line addresses: bus from token 1, device from token 3 minus its last character. */
  function DevicePath(line: string): (p: string)
    requires |Words(line)| > 6
    ensures |DeviceRoot| <= |p| && p[..|DeviceRoot|] == DeviceRoot
  {
    var parts := Words(line);
    DeviceRoot + parts[1] + "/" + DropLast(parts[3])
  }

  /** The resets one line causes: its device path if it triggers, nothing otherwise. */
  function ResetsFor(line: string): seq<string>
  {
    if Triggers(line) then [DevicePath(line)] else []
  }

  /** The device paths reset for a listing, in line order. */
  function ResetPaths(lines: seq<string>): seq<string>
  {
    if lines == [] then []
    else ResetPaths(lines[..|lines| - 1]) + ResetsFor(lines[|lines| - 1])
  }

  /** Each line causes at most one reset. */
  lemma {:induction false} AtMostOneResetPerLine(lines: seq<string>)
    ensures |ResetPaths(lines)| <= |lines|
  {
    if lines != [] {
      AtMostOneResetPerLine(lines[..|lines| - 1]);
    }
  }

  /** Lines are handled independently and in order: a listing's resets are those of its parts. */
  lemma {:induction false} ResetPathsAppend(a: seq<string>, b: seq<string>)
    ensures ResetPaths(a + b) == ResetPaths(a) + ResetPaths(b)
    decreases |b|
  {
    if b == [] {
      assert a + b == a;
    } else {
      var b' := b[..|b| - 1];
      ResetPathsAppend(a, b');
      assert (a + b)[..|a + b| - 1] == a + b';
      assert (a + b)[|a + b| - 1] == b[|b| - 1];
    }
  }

  /** A path is reset exactly when some line of the listing triggers and addresses it. */
  lemma {:induction false} ResetPathsExact(lines: seq<string>, p: string)
    ensures p in ResetPaths(lines) <==> exists l :: l in lines && Triggers(l) && DevicePath(l) == p
  {
    if lines != [] {
      var init, last := lines[..|lines| - 1], lines[|lines| - 1];
      ResetPathsExact(init, p);
      assert lines == init + [last];
      assert forall l :: l in lines <==> l in init || l == last;
    }
  }

  /**
   * `reset_dvbt`: list the USB devices, and for each line that names a supported Realtek
   * tuner reset the device node it addresses.  The listing is an input; the resets issued
   * are returned in order.
   */
  method ResetDvbt(listing: string) returns (resets: seq<string>)
    ensures resets == ResetPaths(SplitOn(listing, '\n'))
    ensures forall p :: p in resets <==>
      exists l :: l in SplitOn(listing, '\n') && Triggers(l) && DevicePath(l) == p
  {
    var devices := SplitOn(listing, '\n');
    resets := [];
    for i := 0 to |devices|
      invariant resets == ResetPaths(devices[..i])
    {
      var line := devices[i];
      var parts := Words(line);
      assert devices[..i + 1][..i] == devices[..i];
      if |parts| > 6 && Contains(line, Vendor) {
        var bus, dev := parts[1], DropLast(parts[3]);
        if parts[5] == "2832" || parts[5] == "2838" {
          resets := resets + [DeviceRoot + bus + "/" + dev];
        }
      }
    }
    assert devices[..|devices|] == devices;
    forall p ensures p in resets <==> exists l :: l in devices && Triggers(l) && DevicePath(l) == p {
      ResetPathsExact(devices, p);
    }
  }

  // The format `lsusb` prints for an RTL2838 stick:
  // "Bus 001 Device 004: ID 0bda:2838 Realtek Semiconductor Corp. RTL2838 DVB-T".
  // Its token 5 is "vendor:product", so the as-written test on token 5 never matches it.

  const RealTokens: seq<string> :=
    ["Bus", "001", "Device", "004:", "ID", "0bda:2838", "Realtek", "Semiconductor", "Corp.", "RTL2838", "DVB-T"]

  /** Such a line exists: the tokens joined by spaces split back into them. */
  lemma RealLineExists()
    ensures Words(JoinWith(RealTokens, ' ')) == RealTokens
  {
    forall i | 0 <= i < |RealTokens| ensures RealTokens[i] != [] && NoSpace(RealTokens[i]) {
    }
    WordsOfJoin(RealTokens);
  }

  /** As written, a line whose token 5 is a `vendor:product` pair never triggers a reset. */
  lemma PairTokenNeverTriggers(line: string)
    requires |Words(line)| > 6 && ':' in Words(line)[5]
    ensures !Triggers(line)
    ensures ResetPaths([line]) == []
  {
  }

  /** In particular a genuine RTL2838 listing line is ignored. */
  lemma RealLineIgnored(line: string)
    requires Words(line) == RealTokens
    ensures !Triggers(line)
  {
  }

  /** The product half of a `vendor:product` identifier (the whole token if it has no colon). */
  function ProductId(id: string): (p: string)
    ensures ':' !in p
    ensures ':' !in id ==> p == id
  {
    var pieces := SplitOn(id, ':');
    pieces[|pieces| - 1]
  }

  /** The product part of `vendor:product` is `product`. */
  lemma ProductIdOfPair(vendor: string, product: string)
    requires ':' !in vendor && ':' !in product
    ensures ProductId(vendor + [':'] + product) == product
  {
    var id := vendor + [':'] + product;
    assert id[|vendor|] == ':';
    var i := IndexOfChar(id, ':');
    assert i == |vendor|;
    assert id[..i] == vendor && id[i + 1..] == product;
    assert SplitOn(id, ':') == [vendor, product];
  }

  /** The evidently intended test: the product part of token 5 is a supported tuner. */
  predicate IntendedTriggers(line: string)
  {
    var parts := Words(line);
    |parts| > 6 && Contains(line, Vendor) && KnownProduct(ProductId(parts[5]))
  }

  /** The intended test agrees with the written one on every line whose token 5 has no colon. */
  lemma IntendedTriggersConservative(line: string)
    requires |Words(line)| > 6 && ':' !in Words(line)[5]
    ensures IntendedTriggers(line) == Triggers(line)
  {
  }

  /** A genuine RTL2838 line names the vendor. */
  lemma RealLineNamesVendor(line: string)
    requires Words(line) == RealTokens
    ensures Contains(line, Vendor)
  {
    assert Words(line)[6] == Vendor;
    WordOccurs(line, 6);
  }

  /** The product part of the genuine line's token 5 is a supported tuner. */
  lemma RealLineProduct()
    ensures KnownProduct(ProductId(RealTokens[5]))
  {
    var vendor, product := "0bda", "2838";
    assert RealTokens[5] == vendor + [':'] + product;
    ProductIdOfPair(vendor, product);
  }

  /** The intended test resets a genuine RTL2838 line, at the bus and device it names. */
  lemma RealLineIntended(line: string)
    requires Words(line) == RealTokens
    ensures IntendedTriggers(line)
  {
    RealLineNamesVendor(line);
    RealLineProduct();
  }

  lemma RealLinePath(line: string)
    requires Words(line) == RealTokens
    ensures DevicePath(line) == "/dev/bus/usb/001/004"
  {
  }
}
