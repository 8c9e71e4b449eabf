/**
  What the sort comparators share: an element is a map from attribute name
  to the attribute's text, a missing attribute reads as the empty string, and
  a comparator's direction is 1 for a forwards sort and -1 otherwise. The
  library's lexicographic string comparison and its text-to-number
  conversion are parameters.
*/
module AttributeSort {
  type Attributes = map<string, string>

  /** A sort direction. */
  type Sign = d: int | d == 1 || d == -1 witness 1

  /** The three-way string comparison the comparators call. */
  type StringCompare = (string, string) -> int

  /** The conversion of an attribute's text to a number. */
  type ToNumber = string -> real

  function DirectionOf(forwards: bool): (d: Sign)
    ensures d == 1 <==> forwards
  {
    if forwards then 1 else -1
  }

  /** The text of attribute `name`, or the empty string when it is absent. */
  function Attribute(element: Attributes, name: string): string
  {
    if name in element then element[name] else ""
  }

  function SignOf(x: int): int
  {
    if x > 0 then 1 else if x < 0 then -1 else 0
  }

  /** Swapping the arguments flips the sign of the result. */
  ghost predicate Antisymmetric(compare: StringCompare)
  {
    forall x, y :: SignOf(compare(x, y)) == -SignOf(compare(y, x))
  }

  /** Anti-symmetry of a comparator on one pair of elements. */
  ghost predicate AntisymmetricAt(r: int, rSwapped: int)
  {
    SignOf(r) == -SignOf(rSwapped)
  }
}

/** The comparators over value-tree nodes. */
module ValueTreeComparators {
  import opened AttributeSort

  /** Orders by the text of one attribute. */
  datatype Lexicographic = Lexicographic(attributeToSort: string, direction: Sign)
  {
    function CompareElements(compare: StringCompare, first: Attributes, second: Attributes): (r: int)
      ensures r == 0 <==> compare(Attribute(first, attributeToSort), Attribute(second, attributeToSort)) == 0
      ensures SignOf(r) == direction * SignOf(compare(Attribute(first, attributeToSort), Attribute(second, attributeToSort)))
    {
      direction * compare(Attribute(first, attributeToSort), Attribute(second, attributeToSort))
    }
  }

  function NewLexicographic(attributeToSort: string, forwards: bool): (c: Lexicographic)
    ensures c.attributeToSort == attributeToSort && (c.direction == 1 <==> forwards)
  {
    Lexicographic(attributeToSort, DirectionOf(forwards))
  }

  /** Orders by the numeric value of one attribute; equal values never compare equal. */
  datatype Numerical = Numerical(attributeToSort: string, direction: Sign)
  {
    function CompareElements(toNumber: ToNumber, first: Attributes, second: Attributes): (r: int)
      ensures r == direction || r == -(direction as int)
      ensures r == direction <==> toNumber(Attribute(first, attributeToSort)) > toNumber(Attribute(second, attributeToSort))
    {
      direction * (if toNumber(Attribute(first, attributeToSort)) > toNumber(Attribute(second, attributeToSort)) then 1 else -1)
    }
  }

  function NewNumerical(attributeToSort: string, forwards: bool): (c: Numerical)
    ensures c.attributeToSort == attributeToSort && (c.direction == 1 <==> forwards)
  {
    Numerical(attributeToSort, DirectionOf(forwards))
  }

  /** Orders by one attribute's text, and by a second attribute's text on a tie. */
  datatype LexicographicWithBackup = LexicographicWithBackup(attributeToSort: string, backupAttribute: string, direction: Sign)
  {
    function CompareElements(compare: StringCompare, first: Attributes, second: Attributes): (r: int)
      ensures var primary := compare(Attribute(first, attributeToSort), Attribute(second, attributeToSort));
              primary != 0 ==> SignOf(r) == direction * SignOf(primary)
      ensures r == 0 <==>
                compare(Attribute(first, attributeToSort), Attribute(second, attributeToSort)) == 0 &&
                compare(Attribute(first, backupAttribute), Attribute(second, backupAttribute)) == 0
    {
      var result := compare(Attribute(first, attributeToSort), Attribute(second, attributeToSort));
      var result' := if result == 0 then compare(Attribute(first, backupAttribute), Attribute(second, backupAttribute)) else result;
      direction * result'
    }
  }

  function NewLexicographicWithBackup(attributeToSort: string, backupAttribute: string, forwards: bool): (c: LexicographicWithBackup)
    ensures c.attributeToSort == attributeToSort && c.backupAttribute == backupAttribute
    ensures c.direction == 1 <==> forwards
  {
    LexicographicWithBackup(attributeToSort, backupAttribute, DirectionOf(forwards))
  }

  /** Sorting backwards negates every result of every value-tree comparator. */
  lemma BackwardsNegates(attributeToSort: string, backupAttribute: string, compare: StringCompare, toNumber: ToNumber,
                         first: Attributes, second: Attributes)
    ensures NewLexicographic(attributeToSort, false).CompareElements(compare, first, second) ==
            -NewLexicographic(attributeToSort, true).CompareElements(compare, first, second)
    ensures NewNumerical(attributeToSort, false).CompareElements(toNumber, first, second) ==
            -NewNumerical(attributeToSort, true).CompareElements(toNumber, first, second)
    ensures NewLexicographicWithBackup(attributeToSort, backupAttribute, false).CompareElements(compare, first, second) ==
            -NewLexicographicWithBackup(attributeToSort, backupAttribute, true).CompareElements(compare, first, second)
  {
  }

  /** An anti-symmetric string comparison makes `Lexicographic` anti-symmetric. */
  lemma LexicographicAntisymmetric(c: Lexicographic, compare: StringCompare, first: Attributes, second: Attributes)
    requires Antisymmetric(compare)
    ensures AntisymmetricAt(c.CompareElements(compare, first, second), c.CompareElements(compare, second, first))
  {
    var x, y := Attribute(first, c.attributeToSort), Attribute(second, c.attributeToSort);
    assert SignOf(compare(x, y)) == -SignOf(compare(y, x));
  }

  /** An anti-symmetric string comparison makes `LexicographicWithBackup` anti-symmetric. */
  lemma WithBackupAntisymmetric(c: LexicographicWithBackup, compare: StringCompare, first: Attributes, second: Attributes)
    requires Antisymmetric(compare)
    ensures AntisymmetricAt(c.CompareElements(compare, first, second), c.CompareElements(compare, second, first))
  {
    var x, y := Attribute(first, c.attributeToSort), Attribute(second, c.attributeToSort);
    var u, v := Attribute(first, c.backupAttribute), Attribute(second, c.backupAttribute);
    assert SignOf(compare(x, y)) == -SignOf(compare(y, x));
    assert SignOf(compare(u, v)) == -SignOf(compare(v, u));
  }

  /**
    The backup attribute is consulted only on a tie: when the primary texts
    differ in the comparison, the backup values do not change the result.
  */
  lemma WithBackupIgnoresBackupUnlessTie(c: LexicographicWithBackup, compare: StringCompare,
                                         first: Attributes, second: Attributes, first': Attributes, second': Attributes)
    requires Attribute(first, c.attributeToSort) == Attribute(first', c.attributeToSort)
    requires Attribute(second, c.attributeToSort) == Attribute(second', c.attributeToSort)
    requires compare(Attribute(first, c.attributeToSort), Attribute(second, c.attributeToSort)) != 0
    ensures c.CompareElements(compare, first, second) == c.CompareElements(compare, first', second')
  {
  }

  /** On a primary tie the result is the backup attribute's comparison, in the sort direction. */
  lemma WithBackupOnTie(c: LexicographicWithBackup, compare: StringCompare, first: Attributes, second: Attributes)
    requires compare(Attribute(first, c.attributeToSort), Attribute(second, c.attributeToSort)) == 0
    ensures c.CompareElements(compare, first, second) ==
            c.direction * compare(Attribute(first, c.backupAttribute), Attribute(second, c.backupAttribute))
  {
  }

  /** `Numerical` compares an element with itself as smaller than itself, for either direction. */
  lemma NumericalSelfCompare(c: Numerical, toNumber: ToNumber, element: Attributes)
    ensures c.CompareElements(toNumber, element, element) == -(c.direction as int)
    ensures !AntisymmetricAt(c.CompareElements(toNumber, element, element), c.CompareElements(toNumber, element, element))
  {
  }

  /** Two elements with equal values compare the same way in both orders, so `Numerical` is not anti-symmetric. */
  lemma NumericalEqualValuesNotAntisymmetric(c: Numerical, toNumber: ToNumber, first: Attributes, second: Attributes)
    requires toNumber(Attribute(first, c.attributeToSort)) == toNumber(Attribute(second, c.attributeToSort))
    ensures c.CompareElements(toNumber, first, second) == c.CompareElements(toNumber, second, first) == -(c.direction as int)
    ensures !AntisymmetricAt(c.CompareElements(toNumber, first, second), c.CompareElements(toNumber, second, first))
  {
  }
}

/** The comparators over XML elements, as the file-browser columns sort them. */
module XmlComparators {
  import opened AttributeSort
  import ValueTreeComparators

  const IdAttribute := "ID"

  /** Orders by one attribute's text, and by the "ID" attribute on a tie. */
  datatype LexicographicSorter = LexicographicSorter(attributeToSort: string, direction: Sign)
  {
    function CompareElements(compare: StringCompare, first: Attributes, second: Attributes): (r: int)
      ensures var primary := compare(Attribute(first, attributeToSort), Attribute(second, attributeToSort));
              primary != 0 ==> SignOf(r) == direction * SignOf(primary)
      ensures r == 0 <==>
                compare(Attribute(first, attributeToSort), Attribute(second, attributeToSort)) == 0 &&
                compare(Attribute(first, IdAttribute), Attribute(second, IdAttribute)) == 0
    {
      var result := compare(Attribute(first, attributeToSort), Attribute(second, attributeToSort));
      var result' := if result == 0 then compare(Attribute(first, IdAttribute), Attribute(second, IdAttribute)) else result;
      direction * result'
    }
  }

  function NewLexicographicSorter(attributeToSort: string, forwards: bool): (c: LexicographicSorter)
    ensures c.attributeToSort == attributeToSort && (c.direction == 1 <==> forwards)
  {
    LexicographicSorter(attributeToSort, DirectionOf(forwards))
  }

  /**
    Orders by the numeric value of one attribute; an element missing the
    attribute on either side makes the first element compare as smaller.
  */
  datatype NumberDataSorter = NumberDataSorter(attributeToSort: string, direction: Sign)
  {
    function CompareElements(toNumber: ToNumber, first: Attributes, second: Attributes): (r: int)
      ensures r == direction || r == -(direction as int)
      ensures Attribute(first, attributeToSort) == "" || Attribute(second, attributeToSort) == "" ==> r == -(direction as int)
      ensures Attribute(first, attributeToSort) != "" && Attribute(second, attributeToSort) != "" ==>
                (r == direction <==> toNumber(Attribute(first, attributeToSort)) > toNumber(Attribute(second, attributeToSort)))
    {
      var a, b := Attribute(first, attributeToSort), Attribute(second, attributeToSort);
      if a == "" || b == "" then direction * -1
      else direction * (if toNumber(a) <= toNumber(b) then -1 else 1)
    }
  }

  function NewNumberDataSorter(attributeToSort: string, forwards: bool): (c: NumberDataSorter)
    ensures c.attributeToSort == attributeToSort && (c.direction == 1 <==> forwards)
  {
    NumberDataSorter(attributeToSort, DirectionOf(forwards))
  }

  /** Sorting backwards negates every result of both XML comparators. */
  lemma BackwardsNegates(attributeToSort: string, compare: StringCompare, toNumber: ToNumber,
                         first: Attributes, second: Attributes)
    ensures NewLexicographicSorter(attributeToSort, false).CompareElements(compare, first, second) ==
            -NewLexicographicSorter(attributeToSort, true).CompareElements(compare, first, second)
    ensures NewNumberDataSorter(attributeToSort, false).CompareElements(toNumber, first, second) ==
            -NewNumberDataSorter(attributeToSort, true).CompareElements(toNumber, first, second)
  {
  }

  /** The XML lexicographic sorter is the value-tree comparator with "ID" as its backup attribute. */
  lemma SorterIsWithBackupOnId(c: LexicographicSorter, compare: StringCompare, first: Attributes, second: Attributes)
    ensures c.CompareElements(compare, first, second) ==
            ValueTreeComparators.LexicographicWithBackup(c.attributeToSort, IdAttribute, c.direction)
              .CompareElements(compare, first, second)
  {
  }

  /** An anti-symmetric string comparison makes the XML lexicographic sorter anti-symmetric. */
  lemma SorterAntisymmetric(c: LexicographicSorter, compare: StringCompare, first: Attributes, second: Attributes)
    requires Antisymmetric(compare)
    ensures AntisymmetricAt(c.CompareElements(compare, first, second), c.CompareElements(compare, second, first))
  {
    SorterIsWithBackupOnId(c, compare, first, second);
    SorterIsWithBackupOnId(c, compare, second, first);
    ValueTreeComparators.WithBackupAntisymmetric(
      ValueTreeComparators.LexicographicWithBackup(c.attributeToSort, IdAttribute, c.direction), compare, first, second);
  }

  /** A missing attribute makes both orders compare the first as smaller, so the sorter is not anti-symmetric. */
  lemma NumberDataSorterMissingNotAntisymmetric(c: NumberDataSorter, toNumber: ToNumber, first: Attributes, second: Attributes)
    requires Attribute(first, c.attributeToSort) == ""
    ensures c.CompareElements(toNumber, first, second) == c.CompareElements(toNumber, second, first) == -(c.direction as int)
    ensures !AntisymmetricAt(c.CompareElements(toNumber, first, second), c.CompareElements(toNumber, second, first))
  {
  }
}
