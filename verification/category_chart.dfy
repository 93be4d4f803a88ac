/**
 * The category pie chart: the total of the counts and the cyclic colour
 * assigned to each slice.
 */
module CategoryChart {
  import opened FeedbackContext

  const Colors: seq<string> := ["#3b82f6", "#a78bfa", "#4ade80", "#f97316", "#f43f5e", "#64748b"]

  /** `data.reduce((sum, item) => sum + item.count, 0)`. */
  function Total(data: seq<CategoryDistribution>): (t: int)
    ensures (forall k :: 0 <= k < |data| ==> 0 <= data[k].count) ==> 0 <= t
  {
    if data == [] then 0 else Total(data[..|data| - 1]) + data[|data| - 1].count
  }

  /** The total of a concatenation is the sum of the totals. */
  lemma {:induction false} TotalAppend(a: seq<CategoryDistribution>, b: seq<CategoryDistribution>)
    ensures Total(a + b) == Total(a) + Total(b)
    decreases |b|
  {
    if b == [] {
      assert a + b == a;
    } else {
      var ab := a + b;
      assert ab[..|ab| - 1] == a + b[..|b| - 1];
      TotalAppend(a, b[..|b| - 1]);
    }
  }

  datatype CategorySlice = CategorySlice(category: string, count: int, color: string)

  /** `dataWithPercentage` without the floating-point percentage. */
  function WithColours(data: seq<CategoryDistribution>): (r: seq<CategorySlice>)
    ensures |r| == |data|
    ensures forall k :: 0 <= k < |r| ==>
      r[k].category == data[k].category && r[k].count == data[k].count && r[k].color in Colors
  {
    seq(|data|, k requires 0 <= k < |data| =>
      CategorySlice(data[k].category, data[k].count, Colors[k % |Colors|]))
  }

  /** Two slices share a colour exactly when their positions agree modulo six. */
  lemma SharedColour(data: seq<CategoryDistribution>, i: nat, j: nat)
    requires i < |data| && j < |data|
    ensures WithColours(data)[i].color == WithColours(data)[j].color <==> i % 6 == j % 6
  {
    var a, b := i % 6, j % 6;
    assert WithColours(data)[i].color == Colors[a];
    assert WithColours(data)[j].color == Colors[b];
    if a != b {
      ColoursDistinct();
    }
  }

  /** The six palette entries are different colours. */
  lemma ColoursDistinct()
    ensures forall a, b :: 0 <= a < b < |Colors| ==> Colors[a] != Colors[b]
  {
    assert Colors[0][1] == '3' && Colors[1][1] == 'a' && Colors[2][1] == '4';
    assert Colors[3][2] == '9' && Colors[4][2] == '4' && Colors[5][1] == '6';
    assert Colors[3][1] == 'f' && Colors[4][1] == 'f';
  }

  /** Up to six slices all get different colours. */
  lemma ColoursDistinctUpToSix(data: seq<CategoryDistribution>)
    requires |data| <= |Colors|
    ensures forall i, j :: 0 <= i < j < |data| ==> WithColours(data)[i].color != WithColours(data)[j].color
  {
    forall i, j | 0 <= i < j < |data|
      ensures WithColours(data)[i].color != WithColours(data)[j].color
    {
      SharedColour(data, i, j);
    }
  }

  /** The five generated categories get five different colours, and their total lies in [150, 505]. */
  lemma GeneratedSlices(draws: seq<nat>)
    requires ValidCategoryDraws(draws)
    ensures var slices := WithColours(GenerateCategoryDistribution(draws));
      forall i, j :: 0 <= i < j < |slices| ==> slices[i].color != slices[j].color
    ensures 150 <= Total(GenerateCategoryDistribution(draws)) <= 505
  {
    var data := GenerateCategoryDistribution(draws);
    ColoursDistinctUpToSix(data);
    TotalOfFive(data);
  }

  lemma TotalOfFive(data: seq<CategoryDistribution>)
    requires |data| == 5
    ensures Total(data) == data[0].count + data[1].count + data[2].count + data[3].count + data[4].count
  {
    assert Total(data[..1]) == data[0].count by {
      assert data[..1][..0] == [];
    }
    assert Total(data[..2]) == Total(data[..1]) + data[1].count by {
      assert data[..2][..1] == data[..1];
    }
    assert Total(data[..3]) == Total(data[..2]) + data[2].count by {
      assert data[..3][..2] == data[..2];
    }
    assert Total(data[..4]) == Total(data[..3]) + data[3].count by {
      assert data[..4][..3] == data[..3];
    }
    assert data[..|data| - 1] == data[..4];
  }
}
