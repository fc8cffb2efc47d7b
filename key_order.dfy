/**
 * The order the ageing report is sorted by (Inventory_ageing.py:144):
 * ascending on (MATERIAL_ID, PLANT_ID, STORAGE_LOCATION, BATCH_NUMBER),
 * each compared as Python compares strings, code point by code point with
 * a proper prefix first.
 */
module KeyOrder {

  /** Python's `a <= b` on two strings. */
  predicate StrLe(a: string, b: string)
    decreases |a|
  {
    a == [] || (b != [] && (a[0] < b[0] || (a[0] == b[0] && StrLe(a[1..], b[1..]))))
  }

  lemma {:induction false} StrLeReflexive(a: string)
    ensures StrLe(a, a)
    decreases |a|
  {
    if a != [] {
      StrLeReflexive(a[1..]);
    }
  }

  lemma {:induction false} StrLeTotal(a: string, b: string)
    ensures StrLe(a, b) || StrLe(b, a)
    decreases |a|
  {
    if a != [] && b != [] && a[0] == b[0] {
      StrLeTotal(a[1..], b[1..]);
    }
  }

  lemma {:induction false} StrLeAntisymmetric(a: string, b: string)
    requires StrLe(a, b) && StrLe(b, a)
    ensures a == b
    decreases |a|
  {
    if a != [] {
      StrLeAntisymmetric(a[1..], b[1..]);
      assert a == [a[0]] + a[1..] && b == [b[0]] + b[1..];
    }
  }

  lemma {:induction false} StrLeTransitive(a: string, b: string, c: string)
    requires StrLe(a, b) && StrLe(b, c)
    ensures StrLe(a, c)
    decreases |a|
  {
    if a != [] && a[0] == b[0] && b[0] == c[0] {
      StrLeTransitive(a[1..], b[1..], c[1..]);
    }
  }

  /** The four identity columns a row is sorted by. */
  datatype Key = Key(materialId: string, plantId: string, storageLocation: string, batchNumber: string)

  /** Lexicographic order on the four-column sort key. */
  predicate KeyLe(x: Key, y: Key) {
    if x.materialId != y.materialId then StrLe(x.materialId, y.materialId)
    else if x.plantId != y.plantId then StrLe(x.plantId, y.plantId)
    else if x.storageLocation != y.storageLocation then StrLe(x.storageLocation, y.storageLocation)
    else StrLe(x.batchNumber, y.batchNumber)
  }

  /** Every key sorts no later than itself. */
  lemma KeyLeReflexive(x: Key)
    ensures KeyLe(x, x)
  {
    StrLeReflexive(x.batchNumber);
  }

  /** Any two keys are ordered one way or the other. */
  lemma KeyLeTotal(x: Key, y: Key)
    ensures KeyLe(x, y) || KeyLe(y, x)
  {
    StrLeTotal(x.materialId, y.materialId);
    StrLeTotal(x.plantId, y.plantId);
    StrLeTotal(x.storageLocation, y.storageLocation);
    StrLeTotal(x.batchNumber, y.batchNumber);
  }

  /** Keys ordered both ways are equal: the order has no ties but identical keys. */
  lemma KeyLeAntisymmetric(x: Key, y: Key)
    requires KeyLe(x, y) && KeyLe(y, x)
    ensures x == y
  {
    if x.materialId != y.materialId {
      StrLeAntisymmetric(x.materialId, y.materialId);
    } else if x.plantId != y.plantId {
      StrLeAntisymmetric(x.plantId, y.plantId);
    } else if x.storageLocation != y.storageLocation {
      StrLeAntisymmetric(x.storageLocation, y.storageLocation);
    } else {
      StrLeAntisymmetric(x.batchNumber, y.batchNumber);
    }
  }

  lemma KeyLeTransitive(x: Key, y: Key, z: Key)
    requires KeyLe(x, y) && KeyLe(y, z)
    ensures KeyLe(x, z)
  {
    if x.materialId != y.materialId || y.materialId != z.materialId {
      StrLeOnDifferentFields(x.materialId, y.materialId, z.materialId);
    } else if x.plantId != y.plantId || y.plantId != z.plantId {
      StrLeOnDifferentFields(x.plantId, y.plantId, z.plantId);
    } else if x.storageLocation != y.storageLocation || y.storageLocation != z.storageLocation {
      StrLeOnDifferentFields(x.storageLocation, y.storageLocation, z.storageLocation);
    } else {
      StrLeTransitive(x.batchNumber, y.batchNumber, z.batchNumber);
    }
  }

  /** Transitivity at the first field where the three keys are not all equal. */
  lemma StrLeOnDifferentFields(a: string, b: string, c: string)
    requires a != b ==> StrLe(a, b)
    requires b != c ==> StrLe(b, c)
    requires a != b || b != c
    ensures a != c ==> StrLe(a, c)
    ensures a == c ==> a == b && b == c
  {
    if a == b {
    } else if b == c {
    } else {
      StrLeTransitive(a, b, c);
      if a == c {
        StrLeAntisymmetric(a, b);
      }
    }
  }

  /** Two rows that differ only in their batch, "B1" and "B2", sort "B1" first. */
  lemma BatchTieBreak(m: string, p: string, s: string)
    ensures KeyLe(Key(m, p, s, "B1"), Key(m, p, s, "B2"))
    ensures !KeyLe(Key(m, p, s, "B2"), Key(m, p, s, "B1"))
  {
    assert "B1"[1..] == "1" && "B2"[1..] == "2";
  }
}
