/**
  The product document: prices, a colour/size stock matrix, images with one
  primary, a slug derived from the name, and a running rating aggregate.
  Colours are matched without regard to case, sizes exactly.
*/
module ProductModel {
  import opened Common

  type ReviewId = nat

  datatype SizeStock = SizeStock(size: string, stock: int, priceAdjustment: int)

  datatype Variant = Variant(color: string, sizes: seq<SizeStock>)

  datatype Image = Image(url: string, isPrimary: bool)

  /** The rating aggregate; the average is a real number, an idealisation of a JavaScript double. */
  datatype Rating = Rating(average: real, count: nat)

  /** One entry of the list getAvailableSizes returns. */
  datatype SizeOffer = SizeOffer(size: string, stock: int, price: int)

  // ---------------------------------------------------------------------------
  // Prices
  // ---------------------------------------------------------------------------

  /** The salePrice validator: no sale price, a zero one, or one below the base price. */
  predicate SalePriceValid(basePrice: int, salePrice: Option<int>)
  {
    salePrice.None? || salePrice.value == 0 || salePrice.value < basePrice
  }

  /** The currentPrice virtual, `salePrice || basePrice`. */
  function CurrentPrice(basePrice: int, salePrice: Option<int>): (p: int)
    ensures salePrice.None? ==> p == basePrice
    ensures p == basePrice || (salePrice.Some? && p == salePrice.value)
  {
    if salePrice.Some? && salePrice.value != 0 then salePrice.value else basePrice
  }

  /**
    Under the validators (both prices non-negative, the sale price valid), the
    current price lies between 0 and the base price, and is below the base price
    exactly when a non-zero sale price is set.
  */
  lemma CurrentPriceBounds(basePrice: int, salePrice: Option<int>)
    requires basePrice >= 0 && (salePrice.Some? ==> salePrice.value >= 0)
    requires SalePriceValid(basePrice, salePrice)
    ensures 0 <= CurrentPrice(basePrice, salePrice) <= basePrice
    ensures CurrentPrice(basePrice, salePrice) < basePrice <==> salePrice.Some? && salePrice.value != 0
  {
  }

  // ---------------------------------------------------------------------------
  // Stock lookups
  // ---------------------------------------------------------------------------

  predicate ColorMatches(v: Variant, color: string)
  {
    Lower(v.color) == Lower(color)
  }

  /** The variant find: the first variant whose colour matches without regard to case, or -1. */
  function FindVariant(variants: seq<Variant>, color: string): int
  {
    FindIndex(variants, (v: Variant) => ColorMatches(v, color))
  }

  /** The size find within one variant: the first entry for exactly that size, or -1. */
  function FindSize(sizes: seq<SizeStock>, size: string): int
  {
    FindIndex(sizes, (e: SizeStock) => e.size == size)
  }

  /** An entry of the matrix for this colour (in any case) and size. */
  predicate HasEntry(variants: seq<Variant>, color: string, size: string, i: int, j: int)
  {
    && 0 <= i < |variants| && ColorMatches(variants[i], color)
    && 0 <= j < |variants[i].sizes| && variants[i].sizes[j].size == size
  }

  /**
    getStock: never fails. An unknown colour gives 0; any other result is the
    stock of an entry for that colour and size, or 0 when the size is missing.
  */
  function GetStock(variants: seq<Variant>, color: string, size: string): (n: int)
    ensures (forall i :: 0 <= i < |variants| ==> !ColorMatches(variants[i], color)) ==> n == 0
    ensures n == 0 || exists i, j :: HasEntry(variants, color, size, i, j) && variants[i].sizes[j].stock == n
  {
    var v := FindVariant(variants, color);
    if v < 0 then 0
    else
      var s := FindSize(variants[v].sizes, size);
      if s < 0 then 0 else variants[v].sizes[s].stock
  }

  predicate StocksNonNegative(variants: seq<Variant>)
  {
    forall i, j :: 0 <= i < |variants| && 0 <= j < |variants[i].sizes| ==> variants[i].sizes[j].stock >= 0
  }

  function EntryStock(e: SizeStock): int { e.stock }

  function VariantStock(v: Variant): int
  {
    Sum(v.sizes, EntryStock)
  }

  /** The totalStock virtual: the sum over every variant and every size. */
  function TotalStock(variants: seq<Variant>): int
  {
    Sum(variants, VariantStock)
  }

  /** The isAvailable virtual. */
  function IsAvailable(isActive: bool, variants: seq<Variant>): (available: bool)
    ensures available ==> isActive
  {
    isActive && TotalStock(variants) > 0
  }

  /**
    With no negative stock, the total is never negative, and the product is
    available exactly when it is active and some size of some colour is in stock.
  */
  lemma AvailableIffSomeStock(isActive: bool, variants: seq<Variant>)
    requires StocksNonNegative(variants)
    ensures TotalStock(variants) >= 0
    ensures IsAvailable(isActive, variants) <==>
      isActive && exists i, j :: 0 <= i < |variants| && 0 <= j < |variants[i].sizes| && variants[i].sizes[j].stock > 0
  {
    forall i | 0 <= i < |variants| ensures VariantStock(variants[i]) >= 0 {
      SumPositiveIff(variants[i].sizes, EntryStock);
    }
    SumPositiveIff(variants, VariantStock);
    if TotalStock(variants) > 0 {
      var i :| 0 <= i < |variants| && VariantStock(variants[i]) > 0;
      SumPositiveIff(variants[i].sizes, EntryStock);
      var j :| 0 <= j < |variants[i].sizes| && EntryStock(variants[i].sizes[j]) > 0;
    }
    if exists i, j :: 0 <= i < |variants| && 0 <= j < |variants[i].sizes| && variants[i].sizes[j].stock > 0 {
      var i, j :| 0 <= i < |variants| && 0 <= j < |variants[i].sizes| && variants[i].sizes[j].stock > 0;
      SumPositiveIff(variants[i].sizes, EntryStock);
    }
  }

  // ---------------------------------------------------------------------------
  // updateStock
  // ---------------------------------------------------------------------------

  /** The matrix with the stock of entry (v, s) replaced. */
  function WithStock(variants: seq<Variant>, v: nat, s: nat, stock: int): seq<Variant>
    requires v < |variants| && s < |variants[v].sizes|
  {
    var sizes := variants[v].sizes;
    variants[v := variants[v].(sizes := sizes[s := sizes[s].(stock := stock)])]
  }

  /**
    What updateStock computes: a missing colour and a missing size are errors,
    and so is an adjustment that would take the stock below zero; otherwise the
    stock getStock reports for that colour and size moves by exactly delta.
  */
  function StockUpdate(variants: seq<Variant>, color: string, size: string, delta: int): (r: Result<seq<Variant>>)
    ensures r == Err(ColorVariantNotFound) <==> FindVariant(variants, color) < 0
    ensures r == Err(SizeNotFound) <==>
      FindVariant(variants, color) >= 0 && FindSize(variants[FindVariant(variants, color)].sizes, size) < 0
    ensures r == Err(InsufficientStock) <==>
      && FindVariant(variants, color) >= 0
      && FindSize(variants[FindVariant(variants, color)].sizes, size) >= 0
      && GetStock(variants, color, size) + delta < 0
    ensures r.Ok? ==> GetStock(r.value, color, size) == GetStock(variants, color, size) + delta >= 0
  {
    var v := FindVariant(variants, color);
    if v < 0 then Err(ColorVariantNotFound)
    else
      var s := FindSize(variants[v].sizes, size);
      if s < 0 then Err(SizeNotFound)
      else
        var stock := variants[v].sizes[s].stock;
        if stock + delta < 0 then Err(InsufficientStock)
        else
          var after := WithStock(variants, v, s, stock + delta);
          FindIndexAlike(variants, (x: Variant) => ColorMatches(x, color), after, (x: Variant) => ColorMatches(x, color));
          FindIndexAlike(variants[v].sizes, (e: SizeStock) => e.size == size, after[v].sizes, (e: SizeStock) => e.size == size);
          Ok(after)
  }

  /** A successful updateStock moves the total stock by exactly delta and keeps every stock non-negative. */
  lemma StockUpdateTotal(variants: seq<Variant>, color: string, size: string, delta: int)
    requires StockUpdate(variants, color, size, delta).Ok?
    ensures TotalStock(StockUpdate(variants, color, size, delta).value) == TotalStock(variants) + delta
    ensures StocksNonNegative(variants) ==> StocksNonNegative(StockUpdate(variants, color, size, delta).value)
  {
    StockUpdateWrites(variants, color, size, delta);
    var v := FindVariant(variants, color);
    var s := FindSize(variants[v].sizes, size);
    WithStockTotal(variants, v, s, variants[v].sizes[s].stock + delta);
  }

  /** Setting one entry's stock moves the total by the difference. */
  lemma WithStockTotal(variants: seq<Variant>, v: nat, s: nat, stock: int)
    requires v < |variants| && s < |variants[v].sizes|
    ensures TotalStock(WithStock(variants, v, s, stock)) == TotalStock(variants) - variants[v].sizes[s].stock + stock
    ensures StocksNonNegative(variants) && stock >= 0 ==> StocksNonNegative(WithStock(variants, v, s, stock))
  {
    var sizes := variants[v].sizes;
    var newEntry := sizes[s].(stock := stock);
    SumUpdate(sizes, s, newEntry, EntryStock);
    SumUpdate(variants, v, variants[v].(sizes := sizes[s := newEntry]), VariantStock);
  }

  /**
    A successful updateStock changes no other lookup: getStock for a colour that
    differs without regard to case, or for another size, reports what it did before.
  */
  lemma StockUpdateFrame(variants: seq<Variant>, color: string, size: string, delta: int, color': string, size': string)
    requires StockUpdate(variants, color, size, delta).Ok?
    requires Lower(color') != Lower(color) || size' != size
    ensures GetStock(StockUpdate(variants, color, size, delta).value, color', size') == GetStock(variants, color', size')
  {
    StockUpdateWrites(variants, color, size, delta);
    var v := FindVariant(variants, color);
    var s := FindSize(variants[v].sizes, size);
    OtherLookupMisses(variants, color, size, color', size');
    WithStockFrame(variants, v, s, variants[v].sizes[s].stock + delta, color', size');
  }

  /** A successful updateStock writes the adjusted stock into the entry the two finds select. */
  lemma StockUpdateWrites(variants: seq<Variant>, color: string, size: string, delta: int)
    requires StockUpdate(variants, color, size, delta).Ok?
    ensures FindVariant(variants, color) >= 0
    ensures FindSize(variants[FindVariant(variants, color)].sizes, size) >= 0
    ensures var v := FindVariant(variants, color);
      var s := FindSize(variants[v].sizes, size);
      StockUpdate(variants, color, size, delta).value == WithStock(variants, v, s, variants[v].sizes[s].stock + delta)
  {
  }

  /** A lookup for a colour that differs without regard to case, or for another size, does not land on the found entry. */
  lemma OtherLookupMisses(variants: seq<Variant>, color: string, size: string, color': string, size': string)
    requires FindVariant(variants, color) >= 0
    requires FindSize(variants[FindVariant(variants, color)].sizes, size) >= 0
    requires Lower(color') != Lower(color) || size' != size
    ensures var v := FindVariant(variants, color);
      FindVariant(variants, color') != v || FindSize(variants[v].sizes, size') != FindSize(variants[v].sizes, size)
  {
    var v := FindVariant(variants, color);
    var s := FindSize(variants[v].sizes, size);
    assert ColorMatches(variants[v], color);
    assert variants[v].sizes[s].size == size;
    assert FindVariant(variants, color') == v ==> ColorMatches(variants[v], color');
    assert FindSize(variants[v].sizes, size') == s ==> variants[v].sizes[s].size == size';
  }

  /** Setting the entry at (v, s) leaves getStock unchanged for any lookup that does not land on it. */
  lemma WithStockFrame(variants: seq<Variant>, v: nat, s: nat, stock: int, color': string, size': string)
    requires v < |variants| && s < |variants[v].sizes|
    requires FindVariant(variants, color') != v || FindSize(variants[v].sizes, size') != s
    ensures GetStock(WithStock(variants, v, s, stock), color', size') == GetStock(variants, color', size')
  {
    var after := WithStock(variants, v, s, stock);
    FindIndexAlike(variants, (x: Variant) => ColorMatches(x, color'), after, (x: Variant) => ColorMatches(x, color'));
    var v' := FindVariant(variants, color');
    if v' >= 0 {
      FindIndexAlike(variants[v'].sizes, (e: SizeStock) => e.size == size', after[v'].sizes, (e: SizeStock) => e.size == size');
    }
  }

  // ---------------------------------------------------------------------------
  // getAvailableSizes
  // ---------------------------------------------------------------------------

  function Offer(e: SizeStock, price: int): SizeOffer
  {
    SizeOffer(e.size, e.stock, price + e.priceAdjustment)
  }

  /** The filter (stock above zero) and map (price with the size's adjustment) of getAvailableSizes. */
  function InStockOffers(sizes: seq<SizeStock>, price: int): (r: seq<SizeOffer>)
    ensures |r| <= |sizes|
    ensures forall i :: 0 <= i < |r| ==>
      r[i].stock > 0 && exists j :: 0 <= j < |sizes| && r[i] == Offer(sizes[j], price)
    ensures forall j :: 0 <= j < |sizes| && sizes[j].stock > 0 ==> Offer(sizes[j], price) in r
    decreases |sizes|
  {
    if sizes == [] then []
    else
      var n := |sizes| - 1;
      var rest := InStockOffers(sizes[..n], price);
      assert forall j :: 0 <= j < n ==> sizes[..n][j] == sizes[j];
      if sizes[n].stock > 0 then rest + [Offer(sizes[n], price)] else rest
  }

  /** The offers of two runs of sizes are those of the first run followed by those of the second: order is kept. */
  lemma {:induction false} InStockOffersConcat(a: seq<SizeStock>, b: seq<SizeStock>, price: int)
    ensures InStockOffers(a + b, price) == InStockOffers(a, price) + InStockOffers(b, price)
    decreases |b|
  {
    if b == [] {
      assert a + b == a;
    } else {
      var n := |b| - 1;
      assert (a + b)[..|a + b| - 1] == a + b[..n];
      InStockOffersConcat(a, b[..n], price);
    }
  }

  /**
    getAvailableSizes: an unknown colour gives no sizes; otherwise the in-stock
    sizes of the matching variant, each priced at the current price plus its adjustment.
  */
  function GetAvailableSizes(variants: seq<Variant>, basePrice: int, salePrice: Option<int>, color: string): (r: seq<SizeOffer>)
    ensures (forall i :: 0 <= i < |variants| ==> !ColorMatches(variants[i], color)) ==> r == []
    ensures forall k :: 0 <= k < |r| ==>
      && r[k].stock > 0
      && exists i, j :: HasEntry(variants, color, r[k].size, i, j)
           && r[k] == Offer(variants[i].sizes[j], CurrentPrice(basePrice, salePrice))
  {
    var v := FindVariant(variants, color);
    if v < 0 then []
    else
      var r := InStockOffers(variants[v].sizes, CurrentPrice(basePrice, salePrice));
      assert forall k :: 0 <= k < |r| ==>
        (exists j :: HasEntry(variants, color, r[k].size, v, j)
           && r[k] == Offer(variants[v].sizes[j], CurrentPrice(basePrice, salePrice)));
      r
  }

  /** Every in-stock size of the matching variant is offered. */
  lemma AvailableSizesComplete(variants: seq<Variant>, basePrice: int, salePrice: Option<int>, color: string, j: nat)
    requires FindVariant(variants, color) >= 0
    requires j < |variants[FindVariant(variants, color)].sizes|
    requires variants[FindVariant(variants, color)].sizes[j].stock > 0
    ensures Offer(variants[FindVariant(variants, color)].sizes[j], CurrentPrice(basePrice, salePrice))
      in GetAvailableSizes(variants, basePrice, salePrice, color)
  {
  }

  // ---------------------------------------------------------------------------
  // Images
  // ---------------------------------------------------------------------------

  function PrimaryFlag(img: Image): int { if img.isPrimary then 1 else 0 }

  /** The number of images flagged primary (the length of the filter the pre-save hook takes). */
  function PrimaryCount(images: seq<Image>): int
  {
    Sum(images, PrimaryFlag)
  }

  function OnlyFirstPrimary(images: seq<Image>): seq<Image>
  {
    seq(|images|, i requires 0 <= i < |images| => images[i].(isPrimary := i == 0))
  }

  /** The pre-save normalisation of the primary flags. */
  function NormalizePrimary(images: seq<Image>): (r: seq<Image>)
    ensures |r| == |images|
    ensures forall i :: 0 <= i < |r| ==> r[i].url == images[i].url
  {
    var n := PrimaryCount(images);
    if n > 1 then OnlyFirstPrimary(images)
    else if n == 0 && |images| > 0 then images[0 := images[0].(isPrimary := true)]
    else images
  }

  lemma PrimaryCountZero(images: seq<Image>)
    ensures PrimaryCount(images) >= 0
    ensures PrimaryCount(images) == 0 <==> forall i :: 0 <= i < |images| ==> !images[i].isPrimary
  {
    SumPositiveIff(images, PrimaryFlag);
  }

  lemma {:induction false} PrimaryCountOne(images: seq<Image>, k: nat)
    requires k < |images|
    requires forall i :: 0 <= i < |images| ==> (images[i].isPrimary <==> i == k)
    ensures PrimaryCount(images) == 1
  {
    var a, b := images[..k], images[k + 1..];
    assert images == a + [images[k]] + b;
    SumConcat(a + [images[k]], b, PrimaryFlag);
    SumConcat(a, [images[k]], PrimaryFlag);
    SumSingleton(images[k], PrimaryFlag);
    forall i | 0 <= i < |a| ensures !a[i].isPrimary {
      assert a[i] == images[i];
    }
    forall i | 0 <= i < |b| ensures !b[i].isPrimary {
      assert b[i] == images[k + 1 + i];
    }
    PrimaryCountZero(a);
    PrimaryCountZero(b);
  }

  /**
    After the pre-save hook a non-empty image list has exactly one primary: the
    first image when there were none or several, the existing one when there was one,
    in which case nothing changes.
  */
  lemma NormalizeGivesOnePrimary(images: seq<Image>)
    requires |images| > 0
    ensures PrimaryCount(NormalizePrimary(images)) == 1
    ensures PrimaryCount(images) != 1 ==>
      forall i :: 0 <= i < |images| ==> (NormalizePrimary(images)[i].isPrimary <==> i == 0)
    ensures PrimaryCount(images) == 1 ==> NormalizePrimary(images) == images
  {
    var n := PrimaryCount(images);
    var r := NormalizePrimary(images);
    PrimaryCountZero(images);
    if n != 1 {
      PrimaryCountOne(r, 0);
    }
  }

  /** The primaryImage virtual: the first primary image, else the first image, else nothing. */
  function PrimaryImage(images: seq<Image>): (r: Option<Image>)
    ensures r.None? <==> images == []
    ensures (exists i :: 0 <= i < |images| && images[i].isPrimary) ==>
      exists k :: 0 <= k < |images| && r == Some(images[k]) && images[k].isPrimary &&
        forall j :: 0 <= j < k ==> !images[j].isPrimary
    ensures (forall i :: 0 <= i < |images| ==> !images[i].isPrimary) && images != [] ==> r == Some(images[0])
  {
    var k := FindIndex(images, (img: Image) => img.isPrimary);
    if k >= 0 then Some(images[k]) else if |images| > 0 then Some(images[0]) else None
  }

  // ---------------------------------------------------------------------------
  // Slug
  // ---------------------------------------------------------------------------

  /** The characters `[a-z0-9 -]` the first replace keeps. */
  predicate KeptBySlug(c: char)
  {
    'a' <= c <= 'z' || '0' <= c <= '9' || c == ' ' || c == '-'
  }

  predicate IsSlugChar(c: char)
  {
    'a' <= c <= 'z' || '0' <= c <= '9' || c == '-'
  }

  predicate SlugChars(s: string)
  {
    forall i :: 0 <= i < |s| ==> IsSlugChar(s[i])
  }

  predicate NoDoubleHyphen(s: string)
  {
    forall i :: 0 <= i < |s| - 1 ==> !(s[i] == '-' && s[i + 1] == '-')
  }

  /** `replace(/[^a-z0-9 -]/g, '')`: the kept characters, in order. */
  function KeepSlugChars(s: string): (r: string)
    ensures forall i :: 0 <= i < |r| ==> KeptBySlug(r[i])
    decreases |s|
  {
    if s == [] then []
    else if KeptBySlug(s[0]) then [s[0]] + KeepSlugChars(s[1..])
    else KeepSlugChars(s[1..])
  }

  lemma {:induction false} KeepSlugCharsAll(s: string)
    requires SlugChars(s)
    ensures KeepSlugChars(s) == s
    decreases |s|
  {
    if s != [] {
      KeepSlugCharsAll(s[1..]);
    }
  }

  /** The two character classes whose runs the slug rule collapses: `\s+` and `-+`. */
  datatype Run = Spaces | Hyphens

  predicate InRun(k: Run, c: char)
  {
    match k
    case Spaces => IsJsWhitespace(c)
    case Hyphens => c == '-'
  }

  /** The string with its leading run of the class removed. */
  function DropRun(s: string, k: Run): (t: string)
    ensures |t| <= |s| && t == s[|s| - |t|..]
    ensures t != [] ==> !InRun(k, t[0])
    ensures s != [] && InRun(k, s[0]) ==> |t| < |s|
    decreases |s|
  {
    if s != [] && InRun(k, s[0]) then DropRun(s[1..], k) else s
  }

  /** `replace(/X+/g, '-')` for the class X: each maximal run of it becomes one hyphen. */
  function CollapseRuns(s: string, k: Run): string
    decreases |s|
  {
    if s == [] then []
    else if InRun(k, s[0]) then ['-'] + CollapseRuns(DropRun(s, k), k)
    else [s[0]] + CollapseRuns(s[1..], k)
  }

  /** Among the characters the first filter keeps, the space is the only white space. */
  lemma KeptWhitespace(c: char)
    requires KeptBySlug(c)
    ensures InRun(Spaces, c) <==> c == ' '
  {
  }

  /** Collapsing white space runs turns characters `[a-z0-9 -]` into characters `[a-z0-9-]`. */
  lemma {:induction false} CollapseSpacesSlugChars(s: string)
    requires forall i :: 0 <= i < |s| ==> KeptBySlug(s[i])
    ensures SlugChars(CollapseRuns(s, Spaces))
    decreases |s|
  {
    if s != [] {
      KeptWhitespace(s[0]);
      if s[0] == ' ' {
        var d := DropRun(s, Spaces);
        assert forall i :: 0 <= i < |d| ==> d[i] == s[|s| - |d| + i];
        CollapseSpacesSlugChars(d);
      } else {
        var tail := s[1..];
        assert forall i :: 0 <= i < |tail| ==> tail[i] == s[i + 1];
        CollapseSpacesSlugChars(tail);
      }
    }
  }

  /** Collapsing hyphen runs keeps characters `[a-z0-9-]`. */
  lemma {:induction false} CollapseHyphensSlugChars(s: string)
    requires SlugChars(s)
    ensures SlugChars(CollapseRuns(s, Hyphens))
    decreases |s|
  {
    if s != [] {
      if s[0] == '-' {
        var d := DropRun(s, Hyphens);
        assert forall i :: 0 <= i < |d| ==> d[i] == s[|s| - |d| + i];
        CollapseHyphensSlugChars(d);
      } else {
        var tail := s[1..];
        assert forall i :: 0 <= i < |tail| ==> tail[i] == s[i + 1];
        CollapseHyphensSlugChars(tail);
      }
    }
  }

  /** Collapsing hyphen runs leaves no two hyphens in a row. */
  lemma {:induction false} CollapseHyphensNoRepeat(s: string)
    ensures NoDoubleHyphen(CollapseRuns(s, Hyphens))
    decreases |s|
  {
    if s != [] {
      var t := CollapseRuns(s, Hyphens);
      if s[0] == '-' {
        var d := DropRun(s, Hyphens);
        CollapseHyphensNoRepeat(d);
        var rest := CollapseRuns(d, Hyphens);
        assert t == ['-'] + rest;
        assert rest != [] ==> rest[0] != '-';
        forall i | 0 <= i < |t| - 1 ensures !(t[i] == '-' && t[i + 1] == '-') {
          if i > 0 {
            assert t[i] == rest[i - 1] && t[i + 1] == rest[i];
          }
        }
      } else {
        CollapseHyphensNoRepeat(s[1..]);
        var rest := CollapseRuns(s[1..], Hyphens);
        assert t == [s[0]] + rest;
        forall i | 0 <= i < |t| - 1 ensures !(t[i] == '-' && t[i + 1] == '-') {
          if i > 0 {
            assert t[i] == rest[i - 1] && t[i + 1] == rest[i];
          }
        }
      }
    }
  }

  /** A string with no character of the class passes through unchanged. */
  lemma {:induction false} CollapseRunsNone(s: string, k: Run)
    requires forall i :: 0 <= i < |s| ==> !InRun(k, s[i])
    ensures CollapseRuns(s, k) == s
    decreases |s|
  {
    if s != [] {
      CollapseRunsNone(s[1..], k);
    }
  }

  /** A string with no two hyphens in a row passes hyphen collapsing unchanged. */
  lemma {:induction false} CollapseHyphensSingles(s: string)
    requires NoDoubleHyphen(s)
    ensures CollapseRuns(s, Hyphens) == s
    decreases |s|
  {
    if s != [] {
      var tail := s[1..];
      assert forall i :: 0 <= i < |tail| ==> tail[i] == s[i + 1];
      CollapseHyphensSingles(tail);
      if s[0] == '-' {
        assert tail != [] ==> tail[0] != '-';
        assert DropRun(tail, Hyphens) == tail;
        assert DropRun(s, Hyphens) == tail;
      }
    }
  }

  lemma TrimNoWhitespace(s: string)
    requires forall i :: 0 <= i < |s| ==> !IsJsWhitespace(s[i])
    ensures Trim(s) == s
  {
  }

  lemma LowerSlugChars(s: string)
    requires SlugChars(s)
    ensures Lower(s) == s
  {
  }

  /** The two run-collapsing replaces of the slug rule. */
  function CollapseSpacesAndHyphens(kept: string): string
  {
    CollapseRuns(CollapseRuns(kept, Spaces), Hyphens)
  }

  lemma CollapseShape(kept: string)
    requires forall i :: 0 <= i < |kept| ==> KeptBySlug(kept[i])
    ensures SlugChars(CollapseSpacesAndHyphens(kept))
    ensures NoDoubleHyphen(CollapseSpacesAndHyphens(kept))
  {
    var spaced := CollapseRuns(kept, Spaces);
    CollapseSpacesSlugChars(kept);
    CollapseHyphensSlugChars(spaced);
    CollapseHyphensNoRepeat(spaced);
  }

  /**
    The name-derived part of the slug. Lower-casing is modelled for ASCII
    letters. The final trim strips white space only, so hyphens at either end stay.
  */
  function Slugify(name: string): string
  {
    Trim(CollapseSpacesAndHyphens(KeepSlugChars(Lower(name))))
  }

  /** The slug of a new document: the name part, a hyphen and the creation time in milliseconds. */
  function NewSlug(name: string, now: nat): string
  {
    Slugify(name) + "-" + NatToString(now)
  }

  /** The name part of a slug holds only a-z, 0-9 and '-', never two hyphens in a row. */
  lemma SlugShape(name: string)
    ensures SlugChars(Slugify(name))
    ensures NoDoubleHyphen(Slugify(name))
  {
    var dashed := CollapseSpacesAndHyphens(KeepSlugChars(Lower(name)));
    CollapseShape(KeepSlugChars(Lower(name)));
    TrimNoWhitespace(dashed);
  }

  lemma SlugCharsNotWhitespace(s: string)
    requires SlugChars(s)
    ensures forall i :: 0 <= i < |s| ==> !InRun(Spaces, s[i])
  {
  }

  /** The name part of a slug is its own slug: recomputing it after a save changes nothing. */
  lemma SlugIdempotent(name: string)
    ensures Slugify(Slugify(name)) == Slugify(name)
  {
    var y := Slugify(name);
    SlugShape(name);
    LowerSlugChars(y);
    KeepSlugCharsAll(y);
    SlugCharsNotWhitespace(y);
    CollapseRunsNone(y, Spaces);
    CollapseHyphensSingles(y);
    assert CollapseSpacesAndHyphens(KeepSlugChars(Lower(y))) == y;
    TrimNoWhitespace(y);
  }

  lemma CollapseSpacesTail()
    ensures CollapseRuns("a ", Spaces) == "a-"
  {
    assert "a "[1..] == " " && " "[1..] == "";
    assert CollapseRuns(" ", Spaces) == "-";
  }

  lemma CollapseSpacesExample()
    ensures CollapseRuns(" a ", Spaces) == "-a-"
  {
    assert " a "[1..] == "a ";
    assert IsJsWhitespace(' ') && !IsJsWhitespace('a');
    assert DropRun("a ", Spaces) == "a ";
    assert DropRun(" a ", Spaces) == "a ";
    CollapseSpacesTail();
  }

  lemma CollapseHyphensTail()
    ensures CollapseRuns("a-", Hyphens) == "a-"
  {
    assert "a-"[1..] == "-" && "-"[1..] == "";
    assert CollapseRuns("-", Hyphens) == "-";
  }

  lemma CollapseHyphensExample()
    ensures CollapseRuns("-a-", Hyphens) == "-a-"
  {
    assert "-a-"[1..] == "a-";
    assert DropRun("a-", Hyphens) == "a-";
    assert DropRun("-a-", Hyphens) == "a-";
    CollapseHyphensTail();
  }

  lemma TrimStarExample()
    ensures Trim("* a *") == "* a *"
  {
    assert !IsJsWhitespace('*');
    assert TrimStart("* a *") == "* a *";
    assert TrimEnd("* a *") == "* a *";
  }

  lemma KeepSlugCharsTail()
    ensures KeepSlugChars("a *") == "a "
  {
    assert "a *"[1..] == " *" && " *"[1..] == "*" && "*"[1..] == "";
    assert KeepSlugChars("*") == "";
    assert KeepSlugChars(" *") == " ";
  }

  lemma KeepSlugCharsExample()
    ensures KeepSlugChars(Lower("* a *")) == " a "
  {
    assert Lower("* a *") == "* a *";
    assert "* a *"[1..] == " a *" && " a *"[1..] == "a *";
    KeepSlugCharsTail();
    assert KeepSlugChars(" a *") == " a ";
  }

  lemma CollapseBothExample()
    ensures CollapseSpacesAndHyphens(" a ") == "-a-"
  {
    CollapseSpacesExample();
    CollapseHyphensExample();
  }

  lemma TrimDashExample()
    ensures Trim("-a-") == "-a-"
  {
    assert !IsJsWhitespace('-') && !IsJsWhitespace('a');
    TrimNoWhitespace("-a-");
  }

  /**
    The trim keeps hyphens. The schema's trim setter leaves "* a *" as it is, the
    first replace turns it into " a ", and the slug starts and ends with a hyphen.
  */
  lemma SlugKeepsEdgeHyphens()
    ensures Trim("* a *") == "* a *"
    ensures Slugify(Trim("* a *")) == "-a-"
  {
    TrimStarExample();
    KeepSlugCharsExample();
    CollapseBothExample();
    TrimDashExample();
  }

  // ---------------------------------------------------------------------------
  // Rating aggregate and review list
  // ---------------------------------------------------------------------------

  /** The running average after addReview; the sum it stands for grows by the rating. */
  function AddRating(r: Rating, rating: int): (r': Rating)
    ensures r'.count == r.count + 1
    ensures r'.average * (r'.count as real) == r.average * (r.count as real) + rating as real
  {
    var total := r.average * (r.count as real) + rating as real;
    Rating(total / ((r.count + 1) as real), r.count + 1)
  }

  /** The running average after removeReview; removing the last (or only) review resets it. */
  function RemoveRating(r: Rating, rating: int): (r': Rating)
    ensures r.count <= 1 ==> r' == Rating(0.0, 0)
    ensures r.count > 1 ==>
      r'.count == r.count - 1 && r'.average * (r'.count as real) == r.average * (r.count as real) - rating as real
  {
    if r.count > 1 then
      var total := r.average * (r.count as real) - rating as real;
      Rating(total / ((r.count - 1) as real), r.count - 1)
    else Rating(0.0, 0)
  }

  /** With exact arithmetic, adding a rating and removing it again restores the aggregate. */
  lemma AddThenRemoveRestores(r: Rating, rating: int)
    requires r.count >= 1 || r.average == 0.0
    ensures RemoveRating(AddRating(r, rating), rating) == r
  {
    var a := AddRating(r, rating);
    if r.count >= 1 {
      var back := RemoveRating(a, rating);
      assert back.average * (r.count as real) == r.average * (r.count as real);
      assert back.average == r.average by {
        var c := r.count as real;
        assert c > 0.0;
        assert (back.average - r.average) * c == 0.0;
      }
    }
  }

  /** Adding a rating in 1..5 to an average in 0..5 keeps the average in 0..5 (the schema's bounds). */
  lemma AddRatingInRange(r: Rating, rating: int)
    requires 0.0 <= r.average <= 5.0 && 1 <= rating <= 5
    ensures 0.0 <= AddRating(r, rating).average <= 5.0
  {
    var c := r.count as real;
    var d := (r.count + 1) as real;
    var sum := r.average * c;
    var total := sum + rating as real;
    assert AddRating(r, rating).average == total / d;
    ScaleBounds(r.average, 5.0, c);
    QuotientBounds(total, 5.0, d);
  }

  /** The array pull: every occurrence of the id removed. */
  function Pull(ids: seq<ReviewId>, id: ReviewId): (r: seq<ReviewId>)
    ensures forall x :: x in r <==> x in ids && x != id
    decreases |ids|
  {
    if ids == [] then []
    else if ids[0] == id then Pull(ids[1..], id)
    else [ids[0]] + Pull(ids[1..], id)
  }

  /** Pull works element by element: it keeps the order and the repeats of the other ids. */
  lemma {:induction false} PullConcat(a: seq<ReviewId>, b: seq<ReviewId>, id: ReviewId)
    ensures Pull(a + b, id) == Pull(a, id) + Pull(b, id)
    decreases |a|
  {
    if a == [] {
      assert a + b == b;
    } else {
      assert (a + b)[0] == a[0] && (a + b)[1..] == a[1..] + b;
      PullConcat(a[1..], b, id);
    }
  }

  /** Pulling an id the list does not hold leaves the list as it is. */
  lemma {:induction false} PullAbsent(ids: seq<ReviewId>, id: ReviewId)
    requires id !in ids
    ensures Pull(ids, id) == ids
    decreases |ids|
  {
    if ids != [] {
      PullAbsent(ids[1..], id);
    }
  }

  /** Pulling an id that was just pushed onto a list without it restores the list. */
  lemma {:induction false} PushThenPull(ids: seq<ReviewId>, id: ReviewId)
    requires id !in ids
    ensures Pull(ids + [id], id) == ids
    decreases |ids|
  {
    if ids == [] {
      assert Pull([id], id) == Pull([], id);
    } else {
      assert (ids + [id])[1..] == ids[1..] + [id];
      PushThenPull(ids[1..], id);
    }
  }

  /** The slug after a save, given the state before it. */
  function SlugAfterSave(slug: string, name: string, isNew: bool, nameModified: bool, now: nat): string
  {
    if isNew then NewSlug(name, now)
    else if nameModified then Slugify(name)
    else slug
  }

  /** The product document. Every method ends with the save that runs the pre-save hook. */
  class Product {
    var name: string
    var slug: string
    var basePrice: int
    var salePrice: Option<int>
    var images: seq<Image>
    var variants: seq<Variant>
    var isActive: bool
    var rating: Rating
    var reviews: seq<ReviewId>
    /** Not yet saved. */
    var isNew: bool
    /** The name was assigned a different value since the last save. */
    var nameModified: bool

    /** A new, unsaved document; the name goes through the schema's trim setter. */
    constructor (name: string, basePrice: int, salePrice: Option<int>, images: seq<Image>, variants: seq<Variant>)
      ensures this.name == Trim(name) && this.basePrice == basePrice && this.salePrice == salePrice
      ensures this.images == images && this.variants == variants
      ensures slug == "" && isActive && rating == Rating(0.0, 0) && reviews == []
      ensures isNew && !nameModified
    {
      this.name := Trim(name);
      this.basePrice := basePrice;
      this.salePrice := salePrice;
      this.images := images;
      this.variants := variants;
      slug := "";
      isActive := true;
      rating := Rating(0.0, 0);
      reviews := [];
      isNew := true;
      nameModified := false;
    }

    /** Assigning the name: the schema trims it, and the path counts as modified when the value changes. */
    method SetName(newName: string)
      modifies this`name, this`nameModified
      ensures name == Trim(newName)
      ensures nameModified == (old(nameModified) || Trim(newName) != old(name))
    {
      var trimmed := Trim(newName);
      if trimmed != name {
        nameModified := true;
      }
      name := trimmed;
    }

    /** The forEach of the pre-save hook and the single-flag fix-up. */
    method NormalizeImages()
      modifies this`images
      ensures images == NormalizePrimary(old(images))
    {
      var primaries := PrimaryCount(images);
      if primaries > 1 {
        var i := 0;
        while i < |images|
          invariant 0 <= i <= |images| == |old(images)|
          invariant forall j :: 0 <= j < i ==> images[j] == old(images)[j].(isPrimary := j == 0)
          invariant forall j :: i <= j < |images| ==> images[j] == old(images)[j]
        {
          images := images[i := images[i].(isPrimary := i == 0)];
          i := i + 1;
        }
        assert images == OnlyFirstPrimary(old(images));
      } else if primaries == 0 && |images| > 0 {
        images := images[0 := images[0].(isPrimary := true)];
      }
    }

    /**
      The pre-save hook: the slug is recomputed when the name changed or the
      document is new (with the creation time appended when new), and the
      primary image flags are normalised.
    */
    method Save(now: nat)
      modifies this`slug, this`images, this`isNew, this`nameModified
      ensures slug == SlugAfterSave(old(slug), name, old(isNew), old(nameModified), now)
      ensures images == NormalizePrimary(old(images))
      ensures |images| > 0 ==> PrimaryCount(images) == 1
      ensures !isNew && !nameModified
    {
      if isNew {
        slug := NewSlug(name, now);
      } else if nameModified {
        slug := Slugify(name);
      }
      if |images| > 0 {
        NormalizeGivesOnePrimary(images);
      }
      NormalizeImages();
      isNew := false;
      nameModified := false;
    }

    method UpdateStock(color: string, size: string, delta: int, now: nat) returns (r: Outcome)
      modifies this`variants, this`slug, this`images, this`isNew, this`nameModified
      ensures var u := StockUpdate(old(variants), color, size, delta);
        && (u.Err? ==> r == Fail(u.error) && variants == old(variants) && slug == old(slug)
                       && images == old(images) && isNew == old(isNew) && nameModified == old(nameModified))
        && (u.Ok? ==> r == Pass && variants == u.value
                      && slug == SlugAfterSave(old(slug), name, old(isNew), old(nameModified), now)
                      && images == NormalizePrimary(old(images)) && !isNew && !nameModified)
      ensures r == Pass ==> GetStock(variants, color, size) == old(GetStock(variants, color, size)) + delta >= 0
      ensures r == Pass ==> TotalStock(variants) == old(TotalStock(variants)) + delta
    {
      var v := FindVariant(variants, color);
      if v < 0 {
        return Fail(ColorVariantNotFound);
      }
      var s := FindSize(variants[v].sizes, size);
      if s < 0 {
        return Fail(SizeNotFound);
      }
      var entry := variants[v].sizes[s];
      if entry.stock + delta < 0 {
        return Fail(InsufficientStock);
      }
      StockUpdateTotal(variants, color, size, delta);
      variants := variants[v := variants[v].(sizes := variants[v].sizes[s := entry.(stock := entry.stock + delta)])];
      Save(now);
      r := Pass;
    }

    method AddReview(reviewId: ReviewId, stars: int, now: nat)
      modifies this`reviews, this`rating, this`slug, this`images, this`isNew, this`nameModified
      ensures reviews == old(reviews) + [reviewId]
      ensures rating == AddRating(old(rating), stars)
      ensures slug == SlugAfterSave(old(slug), name, old(isNew), old(nameModified), now)
      ensures images == NormalizePrimary(old(images)) && !isNew && !nameModified
    {
      reviews := reviews + [reviewId];
      var totalRating := rating.average * (rating.count as real) + stars as real;
      var count := rating.count + 1;
      rating := Rating(totalRating / (count as real), count);
      Save(now);
    }

    method RemoveReview(reviewId: ReviewId, stars: int, now: nat)
      modifies this`reviews, this`rating, this`slug, this`images, this`isNew, this`nameModified
      ensures reviews == Pull(old(reviews), reviewId)
      ensures rating == RemoveRating(old(rating), stars)
      ensures slug == SlugAfterSave(old(slug), name, old(isNew), old(nameModified), now)
      ensures images == NormalizePrimary(old(images)) && !isNew && !nameModified
    {
      reviews := Pull(reviews, reviewId);
      if rating.count > 1 {
        var totalRating := rating.average * (rating.count as real) - stars as real;
        var count := rating.count - 1;
        rating := Rating(totalRating / (count as real), count);
      } else {
        rating := Rating(0.0, 0);
      }
      Save(now);
    }
  }
}
