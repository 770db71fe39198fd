TestResult.DisplayName,TestResult.Outcome,TestResult.Duration,TestResult.ResourceCount,RandomSeed
ExtractPsf.BackgroundBounded (correctness),Passed,00:00:00.7306340,1036061,1
Noise.EstimateGainPoisson (correctness),Passed,00:00:00.6834215,1834283,1
DeconvolvePriv.DeconvolvePrivate.Deconvolve (correctness),Passed,00:00:00.6563326,752506,1
ExtractPsf.AverageCandidates (correctness),Passed,00:00:00.6179825,1077301,1
ReadXml.SumCandidates (correctness),Passed,00:00:00.5200516,767242,1
FiniteDiff.ConstantHasZeroDv (correctness),Passed,00:00:00.5193267,1144193,1
DeconvolveApi.Deconvolve.Deconvolve (well-formedness),Passed,00:00:00.4775420,597838,1
PyStr.LastFieldSplit (correctness),Passed,00:00:00.4348081,1218783,1
BeadPsf.PsfGenerator._ctor (correctness),Passed,00:00:00.4302590,724076,1
FiniteDiff.Grad (well-formedness),Passed,00:00:00.4265468,727886,1
PsfOtf.Psf.Otf (correctness),Passed,00:00:00.4239387,581281,1
FiniteDiff.ConstantHasZeroDv (well-formedness),Passed,00:00:00.4121549,752608,1
DeconvolvePriv.DeconvolvePrivate.Deconvolve (well-formedness),Passed,00:00:00.3863975,578930,1
FiniteDiff.LineEntry (correctness),Passed,00:00:00.3710574,945210,1
DeconvolveApi.Deconvolve.Deconvolve (correctness),Passed,00:00:00.3595237,404838,1
ReadXml.Spots2Psf (well-formedness),Passed,00:00:00.3475298,355785,1
DeconvolvePriv.StackBounded (correctness),Passed,00:00:00.3453823,829155,1
ReadXml.SpotsToPsf (well-formedness),Passed,00:00:00.3409541,390929,1
PlaneRanges.CalcStacksAverage (correctness),Passed,00:00:00.3370575,746913,1
DeconvolvePriv.DeconvolvePrivate.Iterate (correctness),Passed,00:00:00.3260618,547752,1
BeadPsf.FilterBBoxes (correctness),Passed,00:00:00.3049716,697101,1
ExtractPsf.AverageInUnitRange (correctness),Passed,00:00:00.3018193,376564,1
Images.Image.GetStats (correctness),Passed,00:00:00.3016354,949365,1
DeconvolvePriv.DefaultStopsAtCap (correctness),Passed,00:00:00.2983738,431978,1
DeconvolvePriv.DeconvolvePrivate.Prepare (correctness),Passed,00:00:00.2836832,395153,1
BeadPsf.MeanVolumeBetween (correctness),Passed,00:00:00.2686744,1405682,1
ReadXml.AddRowSamples (correctness),Passed,00:00:00.2666142,505687,1
FileNames.OrderedTiffsNames (correctness),Passed,00:00:00.2616677,382280,1
DeconvolvePriv.UserCallbackKeepsStack (correctness),Passed,00:00:00.2600575,436738,1
ReadXml.Spots2Psf (correctness),Passed,00:00:00.2596349,394293,1
ReadXml.ClusterWindows (correctness),Passed,00:00:00.2592963,1232154,1
ExpandShape.Fill (well-formedness),Passed,00:00:00.2567651,639417,1
FiniteDiff.Dv (well-formedness),Passed,00:00:00.2513128,351972,1
Images.Image.StatsRow (correctness),Passed,00:00:00.2493121,531083,1
ExtractPsf.AcceptedPeakIsOne (correctness),Passed,00:00:00.2473470,365618,1
ExtractPsf.ExtractPsfs (correctness),Passed,00:00:00.2463694,361811,1
ReadXml.Strided (well-formedness),Passed,00:00:00.2403797,660057,1
ReadXml.SumCandidates (well-formedness),Passed,00:00:00.2339129,234904,1
ReadXml.Candidate (correctness),Passed,00:00:00.2282445,254082,1
NdArray.Crop (well-formedness),Passed,00:00:00.2277735,508438,1
ExtractPsf.Extraction (well-formedness),Passed,00:00:00.2260004,303724,1
FileNames.Insert (well-formedness),Passed,00:00:00.2245210,347620,1
FiniteDiff.GradAlongLines (correctness),Passed,00:00:00.2207898,403597,1
DeconvolveApi.Deconvolve.Convolve (correctness),Passed,00:00:00.2162527,255179,1
ReadXml.Bin (correctness),Passed,00:00:00.2155635,269915,1
ReadXml.CandidatesFit (well-formedness),Passed,00:00:00.2154865,168448,1
ReadXml.Binned (well-formedness),Passed,00:00:00.2149866,394079,1
DeconvolvePriv.UnregularizedRunsToCap (correctness),Passed,00:00:00.2125186,339724,1
DeconvolvePriv.RunStep (correctness),Passed,00:00:00.2103374,293960,1
BeadPsf.PsfGenerator.CalcMeanPsf (correctness),Passed,00:00:00.2102352,334675,1
ExtractPsf.Averaged (well-formedness),Passed,00:00:00.2092547,235203,1
DeconvolvePriv.DeconvolvePrivate.Convolve (well-formedness),Passed,00:00:00.2082309,220550,1
ExtractPsf.ExtractPsfs (well-formedness),Passed,00:00:00.2081973,290979,1
DeconvolveApi.Deconvolve.Convolve (well-formedness),Passed,00:00:00.2050044,230684,1
DeconvolvePriv.DeconvolvePrivate.Prepare (well-formedness),Passed,00:00:00.2036770,185567,1
FileNames.TimeOfOldStackName (correctness),Passed,00:00:00.2029863,329399,1
ExtractPsf.AccumulateCandidates (correctness),Passed,00:00:00.2029038,280902,1
PsfOtf.Psf.Otf (well-formedness),Passed,00:00:00.1986938,172159,1
PsfOtf.FillPlane (correctness),Passed,00:00:00.1962162,347920,1
ReadXml.Candidates (well-formedness),Passed,00:00:00.1928484,193227,1
ReadXml.Candidate (well-formedness),Passed,00:00:00.1925528,162360,1
FiniteDiff.DiffLine (correctness),Passed,00:00:00.1925129,368051,1
ExtractPsf.AveragedShape (well-formedness),Passed,00:00:00.1887170,241708,1
DeconvolvePriv.DeconvolvePrivate.Convolve (correctness),Passed,00:00:00.1881322,252805,1
ReadXml.CandidatesFit (correctness),Passed,00:00:00.1858119,173162,1
ExtractPsf.PositivePeaksAtMostOne (correctness),Passed,00:00:00.1851794,197902,1
ReadXml.CandidateOf (well-formedness),Passed,00:00:00.1848698,263905,1
ExtractPsf.AverageInUnitRange (well-formedness),Passed,00:00:00.1844628,220424,1
BeadPsf.PsfGenerator.MeanPsf (well-formedness),Passed,00:00:00.1819253,259810,1
Images.Image.Swap (correctness),Passed,00:00:00.1814408,325217,1
Noise.HistPrefix (correctness),Passed,00:00:00.1787241,529159,1
Images.Image.CopyRow (correctness),Passed,00:00:00.1770392,904358,1
ExtractPsf.PositivePeaks (well-formedness),Passed,00:00:00.1729106,159485,1
ExtractPsf.AverageCandidates (well-formedness),Passed,00:00:00.1721986,231605,1
ExtractPsf.Verdicts (well-formedness),Passed,00:00:00.1708020,211834,1
PsfOtf.FillLine (correctness),Passed,00:00:00.1685105,235701,1
ExtractPsf.AveragedShape (correctness),Passed,00:00:00.1656202,239904,1
Images.Image.CombineRow (correctness),Passed,00:00:00.1647003,365135,1
BeadPsf.PsfGenerator.MeanPsf (correctness),Passed,00:00:00.1644679,166503,1
ExtractPsf.AcceptedPeakIsOne (well-formedness),Passed,00:00:00.1629633,178125,1
DeconvolveApi.InterpAtUnitFree (correctness),Passed,00:00:00.1624018,642936,1
ReadXml.AddVolume (well-formedness),Passed,00:00:00.1619052,207643,1
PlaneRanges.FovDropsLastRow (correctness),Passed,00:00:00.1608318,256825,1
DeconvolvePriv.DeconvolvePrivate.Iterate (well-formedness),Passed,00:00:00.1604308,209774,1
FiniteDiff.Zip (well-formedness),Passed,00:00:00.1583130,302099,1
DeconvolvePriv.DeconvolvePrivate.Ask (correctness),Passed,00:00:00.1557070,166800,1
ExtractPsf.DiscardedExactly (correctness),Passed,00:00:00.1549161,227522,1
ExtractPsf.PositivePeaksAtMostOne (well-formedness),Passed,00:00:00.1544847,164596,1
ExpandShape.GrowingEmbedsData (correctness),Passed,00:00:00.1537414,515196,1
ExtractPsf.AccumulateCandidates (well-formedness),Passed,00:00:00.1511087,186835,1
Noise.HistIsDensity (correctness),Passed,00:00:00.1493041,532238,1
ExtractPsf.Assess (well-formedness),Passed,00:00:00.1480970,183203,1
FileNames.OrderedEntriesSorted (correctness),Passed,00:00:00.1469191,197502,1
ReadXml.ExpandWindow (correctness),Passed,00:00:00.1458644,307869,1
BeadPsf.CropPsfs (correctness),Passed,00:00:00.1448278,262226,1
ReadXml.CropWindow (well-formedness),Passed,00:00:00.1436958,288000,1
SliceSpec.ApplyFields (correctness),Passed,00:00:00.1422729,203112,1
ReadXml.RowsAddedStep (correctness),Passed,00:00:00.1419037,195612,1
FileNames.TimeOfStackName (correctness),Passed,00:00:00.1417091,232502,1
Images.Image.Nrm2 (correctness),Passed,00:00:00.1416742,247300,1
DeconvolvePriv.FirstScaledLambda (well-formedness),Passed,00:00:00.1416417,146376,1
ExpandShape.ExpandToShape (correctness),Passed,00:00:00.1413205,159383,1
Noise.EstimateGain (well-formedness),Passed,00:00:00.1410749,177627,1
Images.PadRowColumn (well-formedness),Passed,00:00:00.1397963,21889,1
ReadXml.SummedPlanesMean (correctness),Passed,00:00:00.1393060,201675,1
FileNames.ParseTimeOfStackPath (correctness),Passed,00:00:00.1382363,222437,1
SliceSpec.ParseSliceSpec (correctness),Passed,00:00:00.1382037,276552,1
DeconvolvePriv.DeconvolvePrivate.SetFftwHandlers (correctness),Passed,00:00:00.1376281,152923,1
DeconvolvePriv.LaterLambdaClamped (correctness),Passed,00:00:00.1372908,143462,1
ReadXml.Block (well-formedness),Passed,00:00:00.1358729,320155,1
Images.RealRowsAt (correctness),Passed,00:00:00.1356509,1082203,1
BeadPsf.KeptCrops (well-formedness),Passed,00:00:00.1354680,248558,1
ExpandShape.GrowingEmbedsData (well-formedness),Passed,00:00:00.1345330,190542,1
Noise.WideNoiseSucceeds (correctness),Passed,00:00:00.1336087,366598,1
DeconvolvePriv.Iteration (well-formedness),Passed,00:00:00.1331634,171704,1
ReadXml.Bin (well-formedness),Passed,00:00:00.1317275,105150,1
PyStr.ParseIntStr (correctness),Passed,00:00:00.1306752,452408,1
Images.Image.Combine (correctness),Passed,00:00:00.1305728,216758,1
FileNames.StackNameExample (correctness),Passed,00:00:00.1302678,253640,1
ReadXml.SummedPlanesStep (correctness),Passed,00:00:00.1301566,230894,1
DeconvolveApi.Deconvolve.ClearCallback (correctness),Passed,00:00:00.1260056,103650,1
SliceSpec.SingleNumberIsStop (correctness),Passed,00:00:00.1256977,99860,1
DeconvolvePriv.DeclineIsStrict (correctness),Passed,00:00:00.1247647,29710,1
BeadPsf.PsfGenerator.CalcMeanPsf (well-formedness),Passed,00:00:00.1231685,272264,1
SliceSpec.ParsePart (well-formedness),Passed,00:00:00.1215351,69508,1
ReadXml.DivVolume (well-formedness),Passed,00:00:00.1212363,190897,1
DeconvolvePriv.Run (well-formedness),Passed,00:00:00.1211603,151977,1
ReadXml.BinnedWithin (well-formedness),Passed,00:00:00.1204105,110417,1
DeconvolvePriv.DeconvolvePrivate.ClearFftwHandlers (correctness),Passed,00:00:00.1203965,147988,1
ExpandShape.ExpandedShape (correctness),Passed,00:00:00.1203050,139613,1
DeconvolvePriv.DeconvolvePrivate.Ask (well-formedness),Passed,00:00:00.1182825,146368,1
PyStr.ParseIntDigits (correctness),Passed,00:00:00.1178197,188556,1
ReadXml.TallyFailsIff (correctness),Passed,00:00:00.1174298,153648,1
DeconvolvePriv.FirstLambdaMustBeNonNegative (well-formedness),Passed,00:00:00.1173279,110756,1
ReadXml.TallyOf (well-formedness),Passed,00:00:00.1171207,134667,1
ReadXml.BinnedWithin (correctness),Passed,00:00:00.1167851,175156,1
Noise.EstimateGainPoisson (well-formedness),Passed,00:00:00.1167271,134618,1
ReadXml.ZeroVolume (well-formedness),Passed,00:00:00.1165732,118152,1
ReadXml.SummedPlanesStep (well-formedness),Passed,00:00:00.1164163,128772,1
FiniteDiff.ZeroQuotient (well-formedness),Passed,00:00:00.1163577,127417,1
BeadPsf.MeanVolume (well-formedness),Passed,00:00:00.1163522,177951,1
ReadXml.AddPlaneSamples (correctness),Passed,00:00:00.1161948,190738,1
FiniteDiff.BackwardRaw (well-formedness),Passed,00:00:00.1155047,26911,1
ReadXml.TallyCountsAccepted (correctness),Passed,00:00:00.1152321,198252,1
ExpandShape.ExpandedShape (well-formedness),Passed,00:00:00.1143382,132901,1
Noise.Hist (well-formedness),Passed,00:00:00.1141560,106216,1
FileNames.OrderedTiffsNames (well-formedness),Passed,00:00:00.1139613,114286,1
DeconvolvePriv.FirstScaledLambda (correctness),Passed,00:00:00.1128831,148507,1
DeconvolveApi.Deconvolve.SetCallback (correctness),Passed,00:00:00.1127485,104242,1
Images.Image.GetImage (correctness),Passed,00:00:00.1127226,397337,1
PsfOtf.VoxelValue (correctness),Passed,00:00:00.1126779,235653,1
FileNames.OrderedEntriesPermute (correctness),Passed,00:00:00.1118649,132836,1
ReadXml.TallyStep (correctness),Passed,00:00:00.1114225,120663,1
Images.Image.AddRowSqDist (correctness),Passed,00:00:00.1099878,280002,1
ExtractPsf.FwhmCount (well-formedness),Passed,00:00:00.1097819,118931,1
PsfOtf.InBoundsIff (well-formedness),Passed,00:00:00.1096532,14176,1
ReadXml.BlockWithin (correctness),Passed,00:00:00.1095965,91369,1
PlaneRanges.StackSumAppend (correctness),Passed,00:00:00.1091313,198977,1
ExtractPsf.Window3 (well-formedness),Passed,00:00:00.1090963,140203,1
FiniteDiff.LineEntry (well-formedness),Passed,00:00:00.1090024,192328,1
FiniteDiff.Differences (well-formedness),Passed,00:00:00.1087182,104111,1
DeconvolvePriv.UserCallbackKeepsStack (well-formedness),Passed,00:00:00.1085078,129986,1
DeconvolvePriv.RunStep (well-formedness),Passed,00:00:00.1075384,172776,1
BeadPsf.KeptCropsStep (correctness),Passed,00:00:00.1074446,129767,1
PlaneRanges.FovDropsLastRow (well-formedness),Passed,00:00:00.1061933,139884,1
PlaneRanges.PlaneImage (well-formedness),Passed,00:00:00.1060937,97628,1
ExtractPsf.RollPermutes (correctness),Passed,00:00:00.1057142,350988,1
PySlice.Bound (well-formedness),Passed,00:00:00.1053366,13712,1
Noise.NarrowNoiseRaises (well-formedness),Passed,00:00:00.1052538,114257,1
ReadXml.AddPlaneSamples (well-formedness),Passed,00:00:00.1050385,114487,1
ReadXml.TallyFailureSticks (correctness),Passed,00:00:00.1047067,117426,1
SliceSpec.ParseParts (well-formedness),Passed,00:00:00.1045198,164455,1
PlaneRanges.WritePlanes (correctness),Passed,00:00:00.1034352,234586,1
SliceSpec.ApplyFields (well-formedness),Passed,00:00:00.1026093,104936,1
ExpandShape.OddShrinkRaises (correctness),Passed,00:00:00.1023848,131753,1
ReadXml.SummedPlanesMean (well-formedness),Passed,00:00:00.1020916,127871,1
ExtractPsf.NormalisedPeak (correctness),Passed,00:00:00.1015772,220523,1
DeconvolvePriv.LeastSquaresLambda (well-formedness),Passed,00:00:00.1015345,87260,1
FiniteDiff.ForwardRaw (well-formedness),Passed,00:00:00.1015322,26956,1
PyStr.LastField (well-formedness),Passed,00:00:00.1013184,144614,1
DeconvolvePriv.Correction (well-formedness),Passed,00:00:00.1010874,87195,1
DeconvolveApi.Deconvolve.SetFftwHandlers (correctness),Passed,00:00:00.1008295,112690,1
DeconvolvePriv.VoxelwiseIsCombined (correctness),Passed,00:00:00.1004875,63145,1
FileNames.OrderedTiffs (well-formedness),Passed,00:00:00.0995834,135595,1
DeconvolvePriv.VoxelwiseIsCombined (well-formedness),Passed,00:00:00.0995082,58739,1
DeconvolveApi.Deconvolve.ClearMaxIterations (correctness),Passed,00:00:00.0991483,114290,1
SliceSpec.SplitAt (correctness),Passed,00:00:00.0985306,267891,1
FileNames.StackNameSpelling (correctness),Passed,00:00:00.0983145,406320,1
PsfOtf.Resample (well-formedness),Passed,00:00:00.0982882,81197,1
BeadPsf.AllInteriorKept (correctness),Passed,00:00:00.0979951,144523,1
DeconvolvePriv.DeconvolvePrivate.SetFftwHandlers (well-formedness),Passed,00:00:00.0977472,92365,1
DeconvolveApi.ResamplingUnitFree (correctness),Passed,00:00:00.0976138,132180,1
DeconvolveApi.Deconvolve.EnableRegularization (well-formedness),Passed,00:00:00.0973561,73667,1
ReadXml.TallyFailureSticks (well-formedness),Passed,00:00:00.0957594,87887,1
Noise.HistLastBar (correctness),Passed,00:00:00.0950976,279934,1
PsfOtf.Resample (correctness),Passed,00:00:00.0950173,132520,1
Images.Image.CombineRow (well-formedness),Passed,00:00:00.0947609,109117,1
Images.StatsTo (well-formedness),Passed,00:00:00.0936731,137238,1
Noise.NarrowNoiseRaises (correctness),Passed,00:00:00.0935047,158158,1
DeconvolveApi.Deconvolve.ClearSnr (correctness),Passed,00:00:00.0932984,114323,1
FileNames.OrderedTiffsOld (well-formedness),Passed,00:00:00.0918984,132063,1
DeconvolveApi.Deconvolve.SetCallbackExtended (correctness),Passed,00:00:00.0915096,127623,1
SliceSpec.SliceSpecAxes (correctness),Passed,00:00:00.0914947,156120,1
DeconvolvePriv.DeconvolvePrivate._ctor (correctness),Passed,00:00:00.0912347,113003,1
BeadPsf.KeptBoxesFitFootprint (correctness),Passed,00:00:00.0909590,228539,1
ExtractPsf.BoundaryCropInside (correctness),Passed,00:00:00.0906160,232775,1
DeconvolveApi.Deconvolve.SetCallbackExtended (well-formedness),Passed,00:00:00.0897867,93987,1
Images.Image.InvDivideImage (correctness),Passed,00:00:00.0894638,92330,1
ExtractPsf.CheckAxes (well-formedness),Passed,00:00:00.0885622,34643,1
DeconvolvePriv.ArgsMeaning (correctness),Passed,00:00:00.0875285,145606,1
Images.Image.CopyIn (correctness),Passed,00:00:00.0872988,291533,1
FileNames.Entries (well-formedness),Passed,00:00:00.0871488,107908,1
PySlice.Lo (well-formedness),Passed,00:00:00.0868404,15326,1
FileNames.SortedByTime (well-formedness),Passed,00:00:00.0867338,13121,1
SliceSpec.TwoParts (correctness),Passed,00:00:00.0867000,150006,1
PsfOtf.SingleSampleAxisVanishes (correctness),Passed,00:00:00.0858970,121253,1
ExtractPsf.CountIsAccepted (correctness),Passed,00:00:00.0848703,93665,1
Images.Image.At (well-formedness),Passed,00:00:00.0847036,426855,1
ExtractPsf.BackgroundIterations (well-formedness),Passed,00:00:00.0844297,76962,1
BeadPsf.PsfGenerator._ctor (well-formedness),Passed,00:00:00.0842530,182134,1
DeconvolvePriv.DefaultStopsAtCap (well-formedness),Passed,00:00:00.0842252,130176,1
FileNames.SortByTime (well-formedness),Passed,00:00:00.0840098,95117,1
ExpandShape.Voxel (well-formedness),Passed,00:00:00.0839956,85113,1
ReadXml.SummedPlanes (well-formedness),Passed,00:00:00.0839271,109888,1
FileNames.OrderedEntriesSorted (well-formedness),Passed,00:00:00.0836478,91079,1
DeconvolveApi.Deconvolve.ClearFftwHandlers (well-formedness),Passed,00:00:00.0834213,95039,1
DeconvolvePriv.DeconvolvePrivate._ctor (well-formedness),Passed,00:00:00.0832368,71242,1
FiniteDiff.BackwardIsShiftedForward (correctness),Passed,00:00:00.0831153,60108,1
ExtractPsf.UniformFirstIteration (correctness),Passed,00:00:00.0826995,125817,1
FileNames.DottedStemParsers (correctness),Passed,00:00:00.0825226,175908,1
DeconvolvePriv.DeconvolvePrivate.CallbackDefault (correctness),Passed,00:00:00.0822037,102430,1
FiniteDiff.GradAlongLines (well-formedness),Passed,00:00:00.0816750,140846,1
ReadXml.AddRowSamples (well-formedness),Passed,00:00:00.0813135,103335,1
Images.Image.ProdImage (correctness),Passed,00:00:00.0808393,92330,1
DeconvolveApi.Deconvolve.SetSnr (well-formedness),Passed,00:00:00.0808357,73681,1
DeconvolveApi.SameSamples (correctness),Passed,00:00:00.0807929,506233,1
BeadPsf.OneAbove (correctness),Passed,00:00:00.0804317,42736,1
DeconvolveApi.Deconvolve.SetFftwHandlers (well-formedness),Passed,00:00:00.0804009,100208,1
ReadXml.ExpandIndices (correctness),Passed,00:00:00.0803836,252862,1
ExpandShape.WindowOf (well-formedness),Passed,00:00:00.0803621,7063,1
PlaneRanges.SelectFrames (well-formedness),Passed,00:00:00.0803385,52769,1
PsfOtf.StoreVoxel (correctness),Passed,00:00:00.0801910,313271,1
ExtractPsf.BoundaryCropInside (well-formedness),Passed,00:00:00.0796701,191209,1
FileNames.ProperNamePlaneNegative (correctness),Passed,00:00:00.0795758,170791,1
DeconvolvePriv.DeconvolvePrivate.SetPsf (correctness),Passed,00:00:00.0794158,83046,1
FiniteDiff.DiffAt (well-formedness),Passed,00:00:00.0784897,31796,1
PyNum.SumBounds (correctness),Passed,00:00:00.0780806,119959,1
ReadXml.TallyStep (well-formedness),Passed,00:00:00.0780770,96520,1
Images.NewImage (correctness),Passed,00:00:00.0777781,95252,1
PsfOtf.InterpolatedPlacement (correctness),Passed,00:00:00.0776614,139458,1
NdArray.RavelWithin (correctness),Passed,00:00:00.0775540,93977,1
ReadXml.FixClusterWindow (correctness),Passed,00:00:00.0772270,269671,1
DeconvolveApi.Deconvolve.SetSnr (correctness),Passed,00:00:00.0771820,113454,1
FileNames.OrderedEntriesPermute (well-formedness),Passed,00:00:00.0771505,100005,1
DeconvolvePriv.UnregularizedRunsToCap (well-formedness),Passed,00:00:00.0770629,133978,1
PlaneRanges.PlaneFilesDistinct (correctness),Passed,00:00:00.0770181,101064,1
ExtractPsf.Rescaled (well-formedness),Passed,00:00:00.0769452,95796,1
FftwSettings.NullPlanOnlyFromUser (well-formedness),Passed,00:00:00.0768281,35294,1
DeconvolveApi.Deconvolve.ClearCallback (well-formedness),Passed,00:00:00.0768182,74035,1
PlaneRanges.CropPlanesSelects (correctness),Passed,00:00:00.0761090,50286,1
PlaneRanges.StackSumVoxel (correctness),Passed,00:00:00.0760755,101309,1
DeconvolveApi.Deconvolve.SetMaxIterations (well-formedness),Passed,00:00:00.0759791,73780,1
BeadPsf.Threshold (correctness),Passed,00:00:00.0756966,163993,1
PsfOtf.InterpolatedPlacement (well-formedness),Passed,00:00:00.0753703,81886,1
ExtractPsf.TallyOf (well-formedness),Passed,00:00:00.0752517,63231,1
DeconvolveApi.Deconvolve.EnableRegularization (correctness),Passed,00:00:00.0752303,108456,1
DeconvolveApi.Deconvolve.SetMaxIterations (correctness),Passed,00:00:00.0751822,113547,1
SliceSpec.SplitWithout (correctness),Passed,00:00:00.0749512,41891,1
FftwSettings.NullPlanOnlyFromUser (correctness),Passed,00:00:00.0749391,37636,1
FiniteDiff.ZeroBackward (well-formedness),Passed,00:00:00.0745488,119237,1
PsfOtf.FillPlane (well-formedness),Passed,00:00:00.0744196,100711,1
ExtractPsf.SumAtMostCount (correctness),Passed,00:00:00.0738824,122522,1
ReadXml.BlockWithin (well-formedness),Passed,00:00:00.0736802,80552,1
Noise.WideNoiseSucceeds (well-formedness),Passed,00:00:00.0736237,114250,1
DeconvolvePriv.ArgsMeaning (well-formedness),Passed,00:00:00.0735669,120233,1
DeconvolveApi.Deconvolve.SetPsf (well-formedness),Passed,00:00:00.0734781,70260,1
ExtractPsf.SumAtMostCount (well-formedness),Passed,00:00:00.0733895,59310,1
ReadXml.TallyFailsIff (well-formedness),Passed,00:00:00.0732764,81895,1
DeconvolvePriv.UserAnswer (well-formedness),Passed,00:00:00.0729590,68820,1
ExtractPsf.CountIsAccepted (well-formedness),Passed,00:00:00.0727298,53542,1
ReadXml.BlockMean (well-formedness),Passed,00:00:00.0727142,106611,1
BeadPsf.Threshold (well-formedness),Passed,00:00:00.0726417,40994,1
Images.RealRowsFrame (correctness),Passed,00:00:00.0721891,286230,1
ExtractPsf.FailureSticks (correctness),Passed,00:00:00.0720860,102388,1
DeconvolveApi.Deconvolve.DisableRegularization (correctness),Passed,00:00:00.0717663,108352,1
PyStr.DigitChar (well-formedness),Passed,00:00:00.0717118,9968,1
FiniteDiff.ZeroBackward (correctness),Passed,00:00:00.0717074,138104,1
BeadPsf.KeptCropsStep (well-formedness),Passed,00:00:00.0717063,89720,1
DeconvolvePriv.LaterLambdaClamped (well-formedness),Passed,00:00:00.0716332,123330,1
ReadXml.BlockMeanWithin (well-formedness),Passed,00:00:00.0715326,84327,1
ReadXml.BlockMeanWithin (correctness),Passed,00:00:00.0713560,126872,1
Images.Image.AppendRow (correctness),Passed,00:00:00.0708877,149230,1
LambdaCallback.FromEnd (well-formedness),Passed,00:00:00.0704578,6716,1
ExtractPsf.UniformFirstIteration (well-formedness),Passed,00:00:00.0700660,80310,1
PlaneRanges.MinimalFov (well-formedness),Passed,00:00:00.0698470,146034,1
Images.Image.Set (correctness),Passed,00:00:00.0695536,149191,1
ReadXml.MaximumCentering (well-formedness),Passed,00:00:00.0693353,98101,1
BeadPsf.AllInteriorKept (well-formedness),Passed,00:00:00.0690634,86647,1
DeconvolvePriv.StackBounded (well-formedness),Passed,00:00:00.0686341,130047,1
Images.StatsStep (correctness),Passed,00:00:00.0686108,106081,1
ExtractPsf.EstimateBackground (correctness),Passed,00:00:00.0685254,109889,1
PlaneRanges.NoSlashInZFill (correctness),Passed,00:00:00.0683616,142184,1
FftwSettings.ImageSettings.ForwardPlan (correctness),Passed,00:00:00.0682056,51158,1
PyStr.FirstFieldSplit (correctness),Passed,00:00:00.0678062,155923,1
Images.Image.ProdImage (well-formedness),Passed,00:00:00.0677966,83491,1
Noise.HistInnerBars (correctness),Passed,00:00:00.0677772,135868,1
SliceSpec.EmptySpecKeepsAll (correctness),Passed,00:00:00.0676404,120594,1
Images.SetGetRoundTrip (correctness),Passed,00:00:00.0671371,74840,1
DeconvolvePriv.DeconvolvePrivate.ClearFftwHandlers (well-formedness),Passed,00:00:00.0671300,86426,1
ReadXml.HigherType (well-formedness),Passed,00:00:00.0668316,191729,1
BeadPsf.CropPsfs (well-formedness),Passed,00:00:00.0668118,90969,1
DeconvolveApi.Deconvolve.ClearFftwHandlers (correctness),Passed,00:00:00.0664685,111376,1
BeadPsf.GetLargestBBox (correctness),Passed,00:00:00.0661411,65023,1
ReadXml.RowsAdded (well-formedness),Passed,00:00:00.0658186,118378,1
DeconvolvePriv.FirstLambdaMustBeNonNegative (correctness),Passed,00:00:00.0656786,118728,1
PlaneRanges.CreatePlanesTiff (correctness),Passed,00:00:00.0654178,81924,1
PyStr.ParseInt (well-formedness),Passed,00:00:00.0648242,53260,1
FftwSettings.ImageSettings.InversePlan (well-formedness),Passed,00:00:00.0647977,46805,1
ExtractPsf.FieldOf (well-formedness),Passed,00:00:00.0644247,51763,1
PsfOtf.SingleSampleAxisVanishes (well-formedness),Passed,00:00:00.0642012,80943,1
PsfOtf.NormaliseInPlace (correctness),Passed,00:00:00.0639721,64222,1
ReadXml.Windows (well-formedness),Passed,00:00:00.0639481,75590,1
ExpandShape.ExpandToShape (well-formedness),Passed,00:00:00.0638835,109822,1
PyStr.Split (well-formedness),Passed,00:00:00.0638208,157526,1
DeconvolveApi.Deconvolve._ctor (well-formedness),Passed,00:00:00.0636968,72072,1
PsfOtf.Psf.Set (correctness),Passed,00:00:00.0635633,85013,1
ExtractPsf.CandidateCrop (well-formedness),Passed,00:00:00.0631835,77320,1
Images.Image.Set (well-formedness),Passed,00:00:00.0627646,67442,1
FiniteDiff.Normaliser (well-formedness),Passed,00:00:00.0626950,113955,1
DeconvolveApi.Deconvolve.ClearSnr (well-formedness),Passed,00:00:00.0626752,73963,1
Images.RealRowsFrame (well-formedness),Passed,00:00:00.0624559,30981,1
SliceSpec.SliceSpecAxes (well-formedness),Passed,00:00:00.0623761,103203,1
ExtractPsf.BackgroundFrom (well-formedness),Passed,00:00:00.0620335,80869,1
PsfOtf.PartialStep (correctness),Passed,00:00:00.0619852,116112,1
PsfOtf.FillLine (well-formedness),Passed,00:00:00.0619238,102534,1
ReadXml.BlurSteps (well-formedness),Passed,00:00:00.0619120,46352,1
ReadXml.RowsAddedStep (well-formedness),Passed,00:00:00.0617986,127687,1
PsfOtf.Psf.Valid (well-formedness),Passed,00:00:00.0617568,46905,1
PsfOtf.OwnGridCopies (correctness),Passed,00:00:00.0614787,140237,1
Noise.ClampNegatives (well-formedness),Passed,00:00:00.0611027,29396,1
BeadPsf.CropPsfFits (correctness),Passed,00:00:00.0610442,173974,1
PsfOtf.Interpolated (well-formedness),Passed,00:00:00.0610035,91280,1
FiniteDiff.ZeroQuotient (correctness),Passed,00:00:00.0603916,93993,1
ExtractPsf.UniformMoments (correctness),Passed,00:00:00.0602977,72095,1
ReadXml.TallyCountsAccepted (well-formedness),Passed,00:00:00.0602499,94993,1
BeadPsf.CalcAvBBoxSize (well-formedness),Passed,00:00:00.0599219,47961,1
DeconvolvePriv.DeconvolvePrivate.ClearSnr (correctness),Passed,00:00:00.0593483,44767,1
DeconvolvePriv.Start (well-formedness),Passed,00:00:00.0589234,84862,1
Images.Image.Nrm2 (well-formedness),Passed,00:00:00.0588726,73508,1
DeconvolveApi.Deconvolve.Valid (well-formedness),Passed,00:00:00.0588412,59854,1
Images.Image.InvDivideImage (well-formedness),Passed,00:00:00.0587773,83491,1
ExpandShape.OddShrinkRaises (well-formedness),Passed,00:00:00.0586503,105645,1
DeconvolveApi.SampleUnitFree (well-formedness),Passed,00:00:00.0584095,13482,1
FileNames.Str1965 (correctness),Passed,00:00:00.0583004,149208,1
ExtractPsf.TallyOfNext (correctness),Passed,00:00:00.0582507,62545,1
ExpandShape.Expanded (well-formedness),Passed,00:00:00.0579299,110382,1
DeconvolveApi.Deconvolve.ClearMaxIterations (well-formedness),Passed,00:00:00.0577999,74009,1
DeconvolveApi.Deconvolve.SetPsf (correctness),Passed,00:00:00.0577181,79025,1
ReadXml.ExpandedWindow (well-formedness),Passed,00:00:00.0576343,113492,1
BeadPsf.AvBBoxSizeBetween (correctness),Passed,00:00:00.0575533,193090,1
ExtractPsf.Rolled (well-formedness),Passed,00:00:00.0573982,64313,1
PsfOtf.NewPsf (correctness),Passed,00:00:00.0572816,70710,1
PyNum.SumScale (correctness),Passed,00:00:00.0570898,182582,1
Noise.InnerBar (correctness),Passed,00:00:00.0569058,78153,1
BeadPsf.IsFilterResult (well-formedness),Passed,00:00:00.0568745,55230,1
Noise.EstimateGainOther (correctness),Passed,00:00:00.0567185,129033,1
BeadPsf.CalcAvBBoxSize (correctness),Passed,00:00:00.0566718,108253,1
SliceSpec.TooManyFields (correctness),Passed,00:00:00.0561985,98858,1
SliceSpec.Apply (well-formedness),Passed,00:00:00.0561891,93888,1
SliceSpec.TooManyFields (well-formedness),Passed,00:00:00.0561222,88634,1
ExtractPsf.UniformStackFails (well-formedness),Passed,00:00:00.0559756,76229,1
DeconvolveApi.ApiUnitsAgree (correctness),Passed,00:00:00.0557304,81645,1
DeconvolveApi.Deconvolve._ctor (correctness),Passed,00:00:00.0555581,105364,1
DeconvolveApi.ResamplingUnitFree (well-formedness),Passed,00:00:00.0555427,78381,1
Images.Image.AddRowSqDist (well-formedness),Passed,00:00:00.0554469,58503,1
SliceSpec.EmptyField (correctness),Passed,00:00:00.0548376,105263,1
PlaneRanges.PyRange (well-formedness),Passed,00:00:00.0539088,151558,1
BeadPsf.CropPsf (well-formedness),Passed,00:00:00.0534890,84041,1
FileNames.ProperNamePlaneIsZFill (correctness),Passed,00:00:00.0534224,92608,1
Noise.HistLastBar (well-formedness),Passed,00:00:00.0533444,55193,1
ExtractPsf.BackgroundIterations (correctness),Passed,00:00:00.0532104,87872,1
PyStr.ZFillParse (correctness),Passed,00:00:00.0531927,96953,1
DeconvolveApi.ApiUnitsAgree (well-formedness),Passed,00:00:00.0530711,81506,1
PsfOtf.VoxelValue (well-formedness),Passed,00:00:00.0527203,56350,1
ExtractPsf.BackgroundOf (well-formedness),Passed,00:00:00.0524607,76036,1
PsfOtf.OwnGridCopies (well-formedness),Passed,00:00:00.0521187,56886,1
ExtractPsf.BackgroundBounded (well-formedness),Passed,00:00:00.0520475,82213,1
FileNames.DottedStemSpelling (correctness),Passed,00:00:00.0520279,142588,1
BeadPsf.ZeroBelow (correctness),Passed,00:00:00.0519839,74818,1
ExpandShape.AxisSource (well-formedness),Passed,00:00:00.0516787,55345,1
ReadXml.ExpandedFitsShape (correctness),Passed,00:00:00.0515761,59035,1
DeconvolvePriv.Outcome (well-formedness),Passed,00:00:00.0513985,20591,1
FileNames.TimeFolderParses (correctness),Passed,00:00:00.0512727,82781,1
SliceSpec.SplitThree (correctness),Passed,00:00:00.0507930,109595,1
Images.Image.Combine (well-formedness),Passed,00:00:00.0507766,71751,1
PlaneRanges.CreatePlanesTiff (well-formedness),Passed,00:00:00.0507614,75673,1
Images.NewImage (well-formedness),Passed,00:00:00.0506982,67365,1
Images.SqDistToZeroIff (correctness),Passed,00:00:00.0505684,83991,1
FiniteDiff.Line (well-formedness),Passed,00:00:00.0505581,83208,1
SliceSpec.SliceSpecOf (well-formedness),Passed,00:00:00.0503599,94402,1
PyNum.SumZeroOfZeros (well-formedness),Passed,00:00:00.0500822,9116,1
ExtractPsf.UniformStackFails (correctness),Passed,00:00:00.0497421,86502,1
Noise.ClampNegatives (correctness),Passed,00:00:00.0494820,71518,1
DeconvolveApi.Deconvolve.DisableRegularization (well-formedness),Passed,00:00:00.0486268,73681,1
BeadPsf.MeanVolumeBetween (well-formedness),Passed,00:00:00.0485703,83150,1
FileNames.LastFieldAfter (correctness),Passed,00:00:00.0484980,65344,1
PsfOtf.ShiftBijection (correctness),Passed,00:00:00.0483462,267962,1
Noise.HistInnerBars (well-formedness),Passed,00:00:00.0480030,55979,1
BeadPsf.LargestFootprint (well-formedness),Passed,00:00:00.0478711,31757,1
PsfOtf.StoreVoxel (well-formedness),Passed,00:00:00.0477022,61059,1
ExtractPsf.EmptyCountFails (well-formedness),Passed,00:00:00.0476999,75031,1
Images.Image.GetStats (well-formedness),Passed,00:00:00.0476912,71242,1
PsfOtf.Coords (well-formedness),Passed,00:00:00.0473919,143549,1
BeadPsf.LargestExtentIsMax (correctness),Passed,00:00:00.0472894,74267,1
DeconvolvePriv.DeconvolvePrivate.SetPsf (well-formedness),Passed,00:00:00.0469758,60895,1
ReadXml.PsfShapeCovers (correctness),Passed,00:00:00.0468937,60191,1
DeconvolvePriv.DeconvolvePrivate.SetCallback (well-formedness),Passed,00:00:00.0468138,37028,1
Noise.HistPrefix (well-formedness),Passed,00:00:00.0467818,62846,1
ExtractPsf.EmptyCountFails (correctness),Passed,00:00:00.0462467,76419,1
ExtractPsf.FailureSticks (well-formedness),Passed,00:00:00.0460875,56220,1
DeconvolvePriv.DeconvolvePrivate.SetSnr (correctness),Passed,00:00:00.0460163,46887,1
ReadXml.Bits (well-formedness),Passed,00:00:00.0458623,19385,1
ReadXml.ClusterWindows (well-formedness),Passed,00:00:00.0458573,48006,1
Images.Image.AppendRow (well-formedness),Passed,00:00:00.0457742,48759,1
ReadXml.Expanded (well-formedness),Passed,00:00:00.0456455,124055,1
Images.Image.ReleaseData (correctness),Passed,00:00:00.0454680,63390,1
ReadXml.SameVolume (correctness),Passed,00:00:00.0452619,47922,1
PsfOtf.Psf._ctor (correctness),Passed,00:00:00.0450895,49506,1
PsfOtf.InterpAt (well-formedness),Passed,00:00:00.0450850,97958,1
FiniteDiff.ForwardRawTelescopes (correctness),Passed,00:00:00.0447542,101293,1
SliceSpec.FieldSlice (well-formedness),Passed,00:00:00.0444661,84971,1
Images.StatsUnique (correctness),Passed,00:00:00.0444138,97478,1
DeconvolveApi.Deconvolve.SetCallback (well-formedness),Passed,00:00:00.0440141,77103,1
Noise.MinMaxAttained (correctness),Passed,00:00:00.0439607,76997,1
Noise.PhotonCount (correctness),Passed,00:00:00.0437337,74154,1
PsfOtf.NewPsf (well-formedness),Passed,00:00:00.0435511,52528,1
FiniteDiff.DiffLine (well-formedness),Passed,00:00:00.0434362,37663,1
FiniteDiff.DiffAt (correctness),Passed,00:00:00.0434335,48645,1
ExtractPsf.RollRotates (correctness),Passed,00:00:00.0434232,105381,1
Images.CombinedVoxelwise (well-formedness),Passed,00:00:00.0432675,65717,1
PyStr.SplitExtRoot (well-formedness),Passed,00:00:00.0430698,72256,1
Images.RealPartIgnoresPadding (well-formedness),Passed,00:00:00.0429808,35281,1
PlaneRanges.PlaneIdsIgnoreUpperLimit (correctness),Passed,00:00:00.0429558,85322,1
PlaneRanges.PlaneNamesDiffer (correctness),Passed,00:00:00.0426486,38326,1
ExtractPsf.VisitLabel (well-formedness),Passed,00:00:00.0426231,48153,1
Images.Unpad (well-formedness),Passed,00:00:00.0424515,168437,1
PsfOtf.MulNonNegative (correctness),Passed,00:00:00.0415676,3738,1
Images.RealPartIgnoresPadding (correctness),Passed,00:00:00.0415068,69280,1
DeconvolvePriv.Args (well-formedness),Passed,00:00:00.0409947,48528,1
PsfOtf.PartialEnds (correctness),Passed,00:00:00.0409165,47862,1
PyStr.RemoveUnderscores (well-formedness),Passed,00:00:00.0409013,94409,1
DeconvolvePriv.DeconvolvePrivate.Valid (well-formedness),Passed,00:00:00.0407640,61513,1
ReadXml.ExpandedFitsShape (well-formedness),Passed,00:00:00.0407600,50702,1
BeadPsf.CropAxisFull (correctness),Passed,00:00:00.0406612,178849,1
PsfOtf.LerpBetween (correctness),Passed,00:00:00.0404880,23538,1
PySlice.Slice (well-formedness),Passed,00:00:00.0403663,63177,1
BeadPsf.KeptBoxesFitFootprint (well-formedness),Passed,00:00:00.0403448,58494,1
NdArray.Ravel (well-formedness),Passed,00:00:00.0403229,47298,1
BeadPsf.Thresholded (well-formedness),Passed,00:00:00.0402260,31178,1
FiniteDiff.BackwardRawTelescopes (correctness),Passed,00:00:00.0401682,41983,1
PlaneRanges.StackSumAppend (well-formedness),Passed,00:00:00.0401408,34116,1
Images.RealRows (well-formedness),Passed,00:00:00.0400545,34688,1
SliceSpec.DataSourceChecks (correctness),Passed,00:00:00.0400299,82593,1
PlaneRanges.NoPlanesIff (well-formedness),Passed,00:00:00.0397633,27405,1
ExtractPsf.DiscardedExactly (well-formedness),Passed,00:00:00.0397000,66082,1
PlaneRanges.FirstNonZero (well-formedness),Passed,00:00:00.0394375,75645,1
FileNames.SplitExtRootOf (correctness),Passed,00:00:00.0394280,61406,1
PsfOtf.NormalisedSumsToOne (well-formedness),Passed,00:00:00.0393886,20710,1
DeconvolvePriv.Fits (well-formedness),Passed,00:00:00.0392810,28692,1
Images.PadCovers (correctness),Passed,00:00:00.0391857,28616,1
Images.Image.Valid (well-formedness),Passed,00:00:00.0391404,36385,1
PsfOtf.Psf.Set (well-formedness),Passed,00:00:00.0391306,48252,1
ExtractPsf.Visit (well-formedness),Passed,00:00:00.0390900,56096,1
FiniteDiff.BufferHoldsDiffs (correctness),Passed,00:00:00.0389737,86414,1
PsfOtf.Partial (well-formedness),Passed,00:00:00.0387771,51831,1
ExtractPsf.VisitLabel (correctness),Passed,00:00:00.0387428,55633,1
PlaneRanges.StackSumVoxel (well-formedness),Passed,00:00:00.0385783,39636,1
BeadPsf.OddRoundAboveThreeHalves (correctness),Passed,00:00:00.0385233,241268,1
PlaneRanges.CropPlanes (well-formedness),Passed,00:00:00.0382939,51192,1
FftwSettings.ImageSettings.InversePlan (correctness),Passed,00:00:00.0382722,51158,1
Images.Image.CopyData (correctness),Passed,00:00:00.0379911,72247,1
PsfOtf.PartialEnds (well-formedness),Passed,00:00:00.0379391,47234,1
BeadPsf.FilterSize (well-formedness),Passed,00:00:00.0379206,68078,1
PlaneRanges.CreatePlanesTiffOldNeverWrites (correctness),Passed,00:00:00.0377639,43975,1
DeconvolveApi.SameSamples (well-formedness),Passed,00:00:00.0377180,64411,1
PlaneRanges.LastNonZero (well-formedness),Passed,00:00:00.0374813,69923,1
SliceSpec.TwoParts (well-formedness),Passed,00:00:00.0373763,81496,1
Images.RealPart (well-formedness),Passed,00:00:00.0371585,51704,1
Images.Image.Voxels (well-formedness),Passed,00:00:00.0371086,56617,1
Images.SqDistConcat (correctness),Passed,00:00:00.0370425,74550,1
BeadPsf.CropPsfFits (well-formedness),Passed,00:00:00.0368357,46725,1
ExpandShape.GrowingAxisCopiesAll (correctness),Passed,00:00:00.0368343,78015,1
ExtractPsf.Lowered (well-formedness),Passed,00:00:00.0368255,72501,1
DeconvolvePriv.DeconvolvePrivate.SetRegularization (correctness),Passed,00:00:00.0368167,47027,1
ExtractPsf.Foreground (well-formedness),Passed,00:00:00.0366911,50340,1
Images.Image._ctor (correctness),Passed,00:00:00.0365068,50139,1
ExpandShape.OddShrinkMismatches (correctness),Passed,00:00:00.0364882,96146,1
BeadPsf.LargestBBoxCovers (correctness),Passed,00:00:00.0364235,65522,1
FileNames.LastFieldOrTime (correctness),Passed,00:00:00.0363120,54702,1
FileNames.StrHasNoSeparator (correctness),Passed,00:00:00.0362492,41975,1
Noise.HistIsDensity (well-formedness),Passed,00:00:00.0362416,59570,1
DeconvolvePriv.DeconvolvePrivate.CallbackDefault (well-formedness),Passed,00:00:00.0361528,46762,1
ReadXml.MeanWithin (correctness),Passed,00:00:00.0361482,132416,1
PlaneRanges.Average (well-formedness),Passed,00:00:00.0359593,49899,1
ExtractPsf.ClearDiscarded (correctness),Passed,00:00:00.0357339,77037,1
FileNames.KeptTiffs (well-formedness),Passed,00:00:00.0357325,46859,1
Images.Image.StatsRow (well-formedness),Passed,00:00:00.0356496,55299,1
Images.Image.CopyRow (well-formedness),Passed,00:00:00.0355327,79972,1
BeadPsf.ExactSizeAccepted (correctness),Passed,00:00:00.0354725,63896,1
BeadPsf.ExtentsPrefix (correctness),Passed,00:00:00.0347861,44848,1
PlaneRanges.WritePlanes (well-formedness),Passed,00:00:00.0347274,47281,1
Images.Image.CopyIn (well-formedness),Passed,00:00:00.0346271,58226,1
ExpandShape.AxisWindow (correctness),Passed,00:00:00.0344714,38147,1
PsfOtf.NegativeFractionPasses (well-formedness),Passed,00:00:00.0344543,15689,1
PsfOtf.NegativeFractionPasses (correctness),Passed,00:00:00.0341909,17254,1
ExtractPsf.CountAtLeast (well-formedness),Passed,00:00:00.0341004,17176,1
PlaneRanges.EmptyLimitsDiffer (correctness),Passed,00:00:00.0340450,57199,1
DeconvolvePriv.DeconvolvePrivate.ClearCallback (correctness),Passed,00:00:00.0337150,43065,1
PsfOtf.PartialStep (well-formedness),Passed,00:00:00.0336788,53042,1
FftwSettings.ImageSettings.WithHandlers (correctness),Passed,00:00:00.0332322,43453,1
ReadXml.FittingPrefix (correctness),Passed,00:00:00.0332139,37247,1
ExtractPsf.AverageOf (well-formedness),Passed,00:00:00.0331454,47977,1
DeconvolvePriv.DeconvolvePrivate.ClearSnr (well-formedness),Passed,00:00:00.0330774,34119,1
PsfOtf.StoreAtSource (correctness),Passed,00:00:00.0330142,54791,1
Noise.InnerBar (well-formedness),Passed,00:00:00.0329327,54171,1
DeconvolveApi.InterpAtUnitFree (well-formedness),Passed,00:00:00.0328215,55733,1
PlaneRanges.EmptyLimitsDiffer (well-formedness),Passed,00:00:00.0327805,42397,1
Images.Combined (well-formedness),Passed,00:00:00.0326940,43419,1
FftwSettings.ImageSettings.ForwardPlan (well-formedness),Passed,00:00:00.0325402,46805,1
BeadPsf.LargestBBoxCovers (well-formedness),Passed,00:00:00.0324963,29812,1
DeconvolveApi.Deconvolve.MaxIterations (correctness),Passed,00:00:00.0324704,8743,1
ExtractPsf.BelowCut (well-formedness),Passed,00:00:00.0324638,36892,1
Noise.Clamped (well-formedness),Passed,00:00:00.0322560,35089,1
PlaneRanges.PlaneIdsIgnoreUpperLimit (well-formedness),Passed,00:00:00.0321496,59343,1
ExtractPsf.Stats (well-formedness),Passed,00:00:00.0319309,35496,1
PlaneRanges.CropPlanesSelects (well-formedness),Passed,00:00:00.0318302,37798,1
Noise.Masses (well-formedness),Passed,00:00:00.0317914,39325,1
FftwSettings.MakePlan (correctness),Passed,00:00:00.0317582,59372,1
BeadPsf.ZeroBelow (well-formedness),Passed,00:00:00.0316549,29638,1
Noise.ArgMin (well-formedness),Passed,00:00:00.0316088,66017,1
PlaneRanges.CalcStacksAverage (well-formedness),Passed,00:00:00.0315355,55523,1
DeconvolveApi.SampleUnitFree (correctness),Passed,00:00:00.0314579,94946,1
PyStr.ParseUnsignedDigits (correctness),Passed,00:00:00.0313719,45092,1
DeconvolvePriv.DeconvolvePrivate.SetMaxIterations (correctness),Passed,00:00:00.0313340,46934,1
PsfOtf.NormaliseInPlace (well-formedness),Passed,00:00:00.0312484,28583,1
Images.Image.GetImage (well-formedness),Passed,00:00:00.0312395,58034,1
NdArray.RavelRows (well-formedness),Passed,00:00:00.0310693,36086,1
Images.Pad (well-formedness),Passed,00:00:00.0310078,54642,1
DeconvolvePriv.DeconvolvePrivate.SetMaxIterations (well-formedness),Passed,00:00:00.0309781,33684,1
DeconvolvePriv.Voxelwise (well-formedness),Passed,00:00:00.0309408,39715,1
DeconvolvePriv.DeconvolvePrivate.SetCallback (correctness),Passed,00:00:00.0309054,44650,1
FileNames.FolderSpelling (correctness),Passed,00:00:00.0307724,43760,1
FileNames.PathJoinBasename (correctness),Passed,00:00:00.0307548,38160,1
PsfOtf.TrilinearConvex (correctness),Passed,00:00:00.0305147,40165,1
PyStr.LStrip (well-formedness),Passed,00:00:00.0300888,50109,1
PlaneRanges.ZeroStack (well-formedness),Passed,00:00:00.0299763,29104,1
Noise.MinCountNonNegative (correctness),Passed,00:00:00.0299630,42452,1
SliceSpec.NoBrackets (correctness),Passed,00:00:00.0299030,46320,1
PsfOtf.Psf.CacheHit (well-formedness),Passed,00:00:00.0297899,35911,1
DeconvolvePriv.DeconvolvePrivate.ClearMaxIterations (correctness),Passed,00:00:00.0297713,44447,1
ExtractPsf.TallyOfNext (well-formedness),Passed,00:00:00.0297630,60934,1
Images.CombinedVoxelwise (correctness),Passed,00:00:00.0297251,69034,1
PsfOtf.Psf._ctor (well-formedness),Passed,00:00:00.0297077,41399,1
BeadPsf.Extents (well-formedness),Passed,00:00:00.0297005,41167,1
ReadXml.Fitting (well-formedness),Passed,00:00:00.0296616,28281,1
PsfOtf.FractionInUnit (well-formedness),Passed,00:00:00.0296409,13434,1
FileNames.FirstFieldBefore (correctness),Passed,00:00:00.0296246,43952,1
Images.SoFarIsStats (correctness),Passed,00:00:00.0296089,48007,1
ExtractPsf.CheckBoundary (well-formedness),Passed,00:00:00.0294278,30719,1
Images.Image.CopyData (well-formedness),Passed,00:00:00.0294216,57655,1
FileNames.ZFillDigits (well-formedness),Passed,00:00:00.0293156,28918,1
BeadPsf.AvBBoxSizeBetween (well-formedness),Passed,00:00:00.0292307,37441,1
PyStr.DigitsValueLeadingZeros (correctness),Passed,00:00:00.0291643,59319,1
ReadXml.Clamped (well-formedness),Passed,00:00:00.0290418,76117,1
ExpandShape.EvenShrinkCentreCrops (correctness),Passed,00:00:00.0289997,64385,1
SliceSpec.ThreeFields (correctness),Passed,00:00:00.0289947,41065,1
ReadXml.ExpandLow (correctness),Passed,00:00:00.0289025,65185,1
PyStr.NatStr (well-formedness),Passed,00:00:00.0288288,86135,1
Images.RealRowsAt (well-formedness),Passed,00:00:00.0287705,32831,1
FileNames.ZFillDigits (correctness),Passed,00:00:00.0286792,37264,1
BeadPsf.ExtentsPrefix (well-formedness),Passed,00:00:00.0286243,32367,1
ReadXml.ExpandHigh (correctness),Passed,00:00:00.0285953,58133,1
FiniteDiff.MinModAgrees (correctness),Passed,00:00:00.0284929,83521,1
Images.FirstVoxel (correctness),Passed,00:00:00.0284492,81355,1
SliceSpec.DataSourceChecks (well-formedness),Passed,00:00:00.0279657,57250,1
FftwSettings.MakePlan (well-formedness),Passed,00:00:00.0279623,44166,1
Images.StatsOf (well-formedness),Passed,00:00:00.0279306,30979,1
ReadXml.PsfShapeOf (well-formedness),Passed,00:00:00.0278735,33725,1
PlaneRanges.RowSums (well-formedness),Passed,00:00:00.0277304,39281,1
FiniteDiff.DifferencesTelescope (correctness),Passed,00:00:00.0276747,55643,1
DeconvolvePriv.DeconvolvePrivate.ClearMaxIterations (well-formedness),Passed,00:00:00.0276684,33912,1
FileNames.ProperNamePlane (well-formedness),Passed,00:00:00.0275050,37358,1
ReadXml.FittingPrefix (well-formedness),Passed,00:00:00.0274970,27130,1
ExtractPsf.NothingSelected (correctness),Passed,00:00:00.0274677,25573,1
ExtractPsf.UniformMoments (well-formedness),Passed,00:00:00.0272906,36941,1
PyStr.ParseIntDigits (well-formedness),Passed,00:00:00.0270502,44804,1
DeconvolvePriv.DeconvolvePrivate.SetRegularization (well-formedness),Passed,00:00:00.0270361,33583,1
PsfOtf.NormalisedSumsToOne (correctness),Passed,00:00:00.0269507,55110,1
FiniteDiff.BufferHoldsDiffs (well-formedness),Passed,00:00:00.0269233,38351,1
PsfOtf.CoordsOfFlat (correctness),Passed,00:00:00.0268289,27343,1
ReadXml.ExpandBoth (correctness),Passed,00:00:00.0266525,170801,1
FftwSettings.ImageSettings.ClearPlan (well-formedness),Passed,00:00:00.0265699,34505,1
PyStr.LastFieldSplit (well-formedness),Passed,00:00:00.0265696,52967,1
ExtractPsf.DistSq (well-formedness),Passed,00:00:00.0264025,16574,1
PyStr.ParseUnsigned (well-formedness),Passed,00:00:00.0262547,37363,1
PsfOtf.Source (well-formedness),Passed,00:00:00.0262519,28890,1
LambdaCallback.LambdaLog.Call (correctness),Passed,00:00:00.0261425,49750,1
Noise.UnitCounts (well-formedness),Passed,00:00:00.0260861,47235,1
LambdaCallback.LambdaLog.Call (well-formedness),Passed,00:00:00.0260851,22460,1
PlaneRanges.AddStacks (well-formedness),Passed,00:00:00.0257847,32790,1
Images.Row (well-formedness),Passed,00:00:00.0257329,26608,1
ExtractPsf.Deviations (well-formedness),Passed,00:00:00.0256530,30861,1
ReadXml.PsfShapeOfAppend (correctness),Passed,00:00:00.0255890,36251,1
PlaneRanges.NoPlanesIff (correctness),Passed,00:00:00.0255046,36159,1
PySlice.SliceInRange (correctness),Passed,00:00:00.0254779,33794,1
FileNames.LastFieldWhole (correctness),Passed,00:00:00.0253869,25493,1
FiniteDiff.DifferencesTelescope (well-formedness),Passed,00:00:00.0253765,30409,1
DeconvolveApi.Bind (well-formedness),Passed,00:00:00.0253564,38752,1
PsfOtf.Accumulate (correctness),Passed,00:00:00.0252908,39712,1
DeconvolvePriv.DeconvolvePrivate.SetSnr (well-formedness),Passed,00:00:00.0251982,33583,1
BeadPsf.MeanExtent (well-formedness),Passed,00:00:00.0251454,32339,1
BeadPsf.ExactSizeAccepted (well-formedness),Passed,00:00:00.0250816,35469,1
PsfOtf.PsfAt (well-formedness),Passed,00:00:00.0250296,35314,1
LambdaCallback.TieIsTheOnlyDifference (correctness),Passed,00:00:00.0249688,51189,1
Images.FirstVoxel (well-formedness),Passed,00:00:00.0246551,35838,1
Noise.MinCountNonNegative (well-formedness),Passed,00:00:00.0246033,29078,1
PsfOtf.NewHandlersForceRecompute (well-formedness),Passed,00:00:00.0245252,27006,1
PsfOtf.NewHandlersForceRecompute (correctness),Passed,00:00:00.0245031,27132,1
ExtractPsf.NormalisedPeak (well-formedness),Passed,00:00:00.0244480,32475,1
FiniteDiff.BackwardRawTelescopes (well-formedness),Passed,00:00:00.0244465,21558,1
ExtractPsf.Selected (well-formedness),Passed,00:00:00.0243755,24978,1
ExtractPsf.Roll (well-formedness),Passed,00:00:00.0243381,28291,1
PyStr.ZFill (well-formedness),Passed,00:00:00.0243173,38230,1
PyStr.RStrip (well-formedness),Passed,00:00:00.0243019,48615,1
Noise.CountTotal (correctness),Passed,00:00:00.0242025,69167,1
NdArray.RavelWithin (well-formedness),Passed,00:00:00.0241440,32523,1
PyStr.ParseUnsignedDigits (well-formedness),Passed,00:00:00.0240906,30297,1
Images.SqDistAppend (correctness),Passed,00:00:00.0240251,43689,1
PlaneRanges.CreatePlanesTiffOldNeverWrites (well-formedness),Passed,00:00:00.0240100,28935,1
FftwSettings.ImageSettings.ClearPlan (correctness),Passed,00:00:00.0238891,43675,1
Images.SqDistToPrefix (correctness),Passed,00:00:00.0238814,41556,1
PsfOtf.Sample (well-formedness),Passed,00:00:00.0238636,16546,1
FftwSettings.ImageSettings._ctor (correctness),Passed,00:00:00.0237886,33245,1
SliceSpec.DataSource (well-formedness),Passed,00:00:00.0237879,42324,1
LambdaCallback.TieIsTheOnlyDifference (well-formedness),Passed,00:00:00.0237749,21181,1
FiniteDiff.Backward (well-formedness),Passed,00:00:00.0236913,33653,1
ExpandShape.BroadcastFits (correctness),Passed,00:00:00.0235577,41920,1
ReadXml.SameVolume (well-formedness),Passed,00:00:00.0234099,26601,1
NdArray.Max (well-formedness),Passed,00:00:00.0233083,30484,1
FftwSettings.PlanOutcome (well-formedness),Passed,00:00:00.0232368,43965,1
PySlice.Hi (well-formedness),Passed,00:00:00.0231074,15046,1
BeadPsf.Column (well-formedness),Passed,00:00:00.0230499,47664,1
BeadPsf.ZeroToleranceRejectsAll (correctness),Passed,00:00:00.0230292,42519,1
PsfOtf.Accumulate (well-formedness),Passed,00:00:00.0230214,15843,1
Images.PadRowColumn (correctness),Passed,00:00:00.0227272,48717,1
ExtractPsf.Cleared (well-formedness),Passed,00:00:00.0226181,39387,1
FiniteDiff.NormalisedComponentBounded (correctness),Passed,00:00:00.0224827,30796,1
BeadPsf.ThresholdKeepsOrZeroes (correctness),Passed,00:00:00.0223865,27724,1
DeconvolvePriv.DeconvolvePrivate.ClearCallback (well-formedness),Passed,00:00:00.0223757,33945,1
Images.Image.ReleaseData (well-formedness),Passed,00:00:00.0222614,30331,1
FftwSettings.ImageSettings.Copy (correctness),Passed,00:00:00.0222271,39095,1
PsfOtf.Normalised (well-formedness),Passed,00:00:00.0219956,25474,1
PlaneRanges.StackSum (well-formedness),Passed,00:00:00.0219527,34488,1
ExtractPsf.AddVec (well-formedness),Passed,00:00:00.0219206,32864,1
NdArray.HasShape (well-formedness),Passed,00:00:00.0217043,18405,1
ExpandShape.SeqMin (well-formedness),Passed,00:00:00.0216744,37521,1
ReadXml.BinnedShape (well-formedness),Passed,00:00:00.0215128,22237,1
FileNames.Names (well-formedness),Passed,00:00:00.0215055,36060,1
PsfOtf.Rank (well-formedness),Passed,00:00:00.0212763,27237,1
PsfOtf.StoreAtSource (well-formedness),Passed,00:00:00.0212095,26233,1
FiniteDiff.Forward (well-formedness),Passed,00:00:00.0211456,33856,1
PySlice.Len (well-formedness),Passed,00:00:00.0210239,21851,1
Images.Image.Swap (well-formedness),Passed,00:00:00.0207060,38047,1
NdArray.PlaneWithin (correctness),Passed,00:00:00.0206090,36467,1
ExtractPsf.Shifted (well-formedness),Passed,00:00:00.0205252,24890,1
FftwSettings.ImageSettings.WithHandlers (well-formedness),Passed,00:00:00.0204486,29045,1
Noise.Max (well-formedness),Passed,00:00:00.0204468,23751,1
Images.SoFarIsStats (well-formedness),Passed,00:00:00.0203857,25145,1
PyStr.StripNothing (correctness),Passed,00:00:00.0202897,25963,1
Images.Image.Compatible (well-formedness),Passed,00:00:00.0202631,25413,1
PlaneRanges.PyRangeUnitStep (correctness),Passed,00:00:00.0201828,37201,1
FftwSettings.FftwState._ctor (correctness),Passed,00:00:00.0201387,7663,1
ExtractPsf.RollPermutes (well-formedness),Passed,00:00:00.0201136,24002,1
ExtractPsf.WindowInside (correctness),Passed,00:00:00.0201083,31114,1
PlaneRanges.PlaneIds (well-formedness),Passed,00:00:00.0201062,26710,1
Noise.CountAbove (correctness),Passed,00:00:00.0200293,24250,1
ExtractPsf.Resize (well-formedness),Passed,00:00:00.0200148,35713,1
NdArray.RavelPlane (well-formedness),Passed,00:00:00.0200122,21493,1
PyNum.SumScale (well-formedness),Passed,00:00:00.0198496,26010,1
Noise.CollapsedReBins (correctness),Passed,00:00:00.0198091,24213,1
FiniteDiff.PrevAt (well-formedness),Passed,00:00:00.0197905,29117,1
BeadPsf.ThresholdKeepsOrZeroes (well-formedness),Passed,00:00:00.0196929,21924,1
ExtractPsf.Normalised (well-formedness),Passed,00:00:00.0195714,25707,1
ExtractPsf.AcceptedLabels (well-formedness),Passed,00:00:00.0194180,23817,1
ReadXml.BlockSize (well-formedness),Passed,00:00:00.0193969,17085,1
BeadPsf.ThresholdBinaryIndicator (well-formedness),Passed,00:00:00.0193661,27130,1
PyStr.Basename (well-formedness),Passed,00:00:00.0193593,28173,1
PsfOtf.InBoundsIff (correctness),Passed,00:00:00.0193083,23572,1
FftwSettings.FftwState.Init (well-formedness),Passed,00:00:00.0191969,16477,1
FiniteDiff.BackwardIsShiftedForward (well-formedness),Passed,00:00:00.0191852,37452,1
PsfOtf.StoreAt (well-formedness),Passed,00:00:00.0190737,21044,1
PyStr.Str (well-formedness),Passed,00:00:00.0189675,33924,1
Images.StatsSoFar (well-formedness),Passed,00:00:00.0189391,21620,1
Images.SqDistZeroIff (correctness),Passed,00:00:00.0189145,21659,1
ExtractPsf.Zeros (well-formedness),Passed,00:00:00.0188708,30024,1
ReadXml.PsfShapeCovers (well-formedness),Passed,00:00:00.0187682,22134,1
PsfOtf.CentresCoincide (well-formedness),Passed,00:00:00.0187341,7479,1
BeadPsf.CropAxisFull (well-formedness),Passed,00:00:00.0186443,21236,1
FiniteDiff.Subtracted (well-formedness),Passed,00:00:00.0183769,12270,1
PsfOtf.FractionInUnit (correctness),Passed,00:00:00.0182654,13234,1
PyStr.Zeros (well-formedness),Passed,00:00:00.0182560,29480,1
PyStr.DigitsNotWhitespace (correctness),Passed,00:00:00.0181873,23864,1
ExpandShape.EvenShrinkCentreCrops (well-formedness),Passed,00:00:00.0181697,24356,1
ExtractPsf.RollRotates (well-formedness),Passed,00:00:00.0181371,24065,1
NdArray.VoxelsWithin (well-formedness),Passed,00:00:00.0181266,24866,1
NdArray.SeqMax (well-formedness),Passed,00:00:00.0181226,37442,1
ExpandShape.GrowingAxisCopiesAll (well-formedness),Passed,00:00:00.0180491,23717,1
Noise.Min (well-formedness),Passed,00:00:00.0179848,23721,1
FileNames.Tail (well-formedness),Passed,00:00:00.0178712,11711,1
FftwSettings.ClearOutcome (well-formedness),Passed,00:00:00.0178564,20731,1
FftwSettings.FftwState.Init (correctness),Passed,00:00:00.0178493,20836,1
FileNames.FolderSpelling (well-formedness),Passed,00:00:00.0178130,21517,1
FftwSettings.ImageSettings.SameShared (well-formedness),Passed,00:00:00.0178044,12339,1
ExtractPsf.Clip (well-formedness),Passed,00:00:00.0176115,5363,1
Noise.Candidates (well-formedness),Passed,00:00:00.0175303,33445,1
PlaneRanges.PlaneIdsOld (well-formedness),Passed,00:00:00.0174980,26268,1
SliceSpec.SliceOf (well-formedness),Passed,00:00:00.0174940,31582,1
PsfOtf.FlatIndex (well-formedness),Passed,00:00:00.0174709,19540,1
BeadPsf.ThresholdBinaryIndicator (correctness),Passed,00:00:00.0173559,26918,1
PyStr.DigitsValueLeadingZeros (well-formedness),Passed,00:00:00.0171830,18396,1
ReadXml.MeanWithin (well-formedness),Passed,00:00:00.0170456,11692,1
BeadPsf.LargestExtentStep (correctness),Passed,00:00:00.0169506,24491,1
Images.IsStats (well-formedness),Passed,00:00:00.0169488,28084,1
ReadXml.FixIndices (correctness),Passed,00:00:00.0169148,36116,1
ExtractPsf.SupersampledVolume (well-formedness),Passed,00:00:00.0168645,22159,1
Noise.PhotonValue (well-formedness),Passed,00:00:00.0168530,13095,1
PsfOtf.LineBaseNext (correctness),Passed,00:00:00.0167179,18433,1
PyStr.DigitsNotWhitespace (well-formedness),Passed,00:00:00.0164201,16472,1
Images.MinMod (well-formedness),Passed,00:00:00.0164131,18611,1
PsfOtf.VolumePositive (correctness),Passed,00:00:00.0164034,14772,1
PsfOtf.CoordsOfFlat (well-formedness),Passed,00:00:00.0163342,18629,1
PlaneRanges.ZeroMean (well-formedness),Passed,00:00:00.0162932,29890,1
PyStr.FirstField (well-formedness),Passed,00:00:00.0162898,34489,1
PyNum.SumZeroOfZeros (correctness),Passed,00:00:00.0162518,13311,1
BeadPsf.RelativeCut (well-formedness),Passed,00:00:00.0161498,10857,1
PsfOtf.FlatIndexInLine (well-formedness),Passed,00:00:00.0161238,13759,1
FileNames.FirstFieldWhole (correctness),Passed,00:00:00.0160768,22453,1
BeadPsf.ZeroToleranceRejectsBox (correctness),Passed,00:00:00.0160211,22718,1
ReadXml.AsShape (well-formedness),Passed,00:00:00.0159492,9218,1
ExtractPsf.DualParabola (well-formedness),Passed,00:00:00.0159396,6748,1
PyNum.RoundHalfEven (well-formedness),Passed,00:00:00.0158929,21289,1
ReadXml.BlockEnd (correctness),Passed,00:00:00.0158637,29245,1
PyStr.ZerosValue (correctness),Passed,00:00:00.0158636,22350,1
FiniteDiff.NextAt (well-formedness),Passed,00:00:00.0158530,28318,1
ExtractPsf.AtMostOne (well-formedness),Passed,00:00:00.0158125,15715,1
DeconvolvePriv.PushedKeepsNewest (correctness),Passed,00:00:00.0158124,18347,1
FftwSettings.InitOutcome (well-formedness),Passed,00:00:00.0157422,15053,1
ExpandShape.OddShrinkMismatches (well-formedness),Passed,00:00:00.0157297,23999,1
PyStr.FirstFieldSplit (well-formedness),Passed,00:00:00.0157144,21508,1
ExtractPsf.DualParabolaMirror (correctness),Passed,00:00:00.0156949,6553,1
BeadPsf.LargestExtentIsMax (well-formedness),Passed,00:00:00.0155583,24377,1
Noise.CountSplit (correctness),Passed,00:00:00.0155308,34012,1
PsfOtf.CentresCoincide (correctness),Passed,00:00:00.0154969,17031,1
PyStr.Strip (well-formedness),Passed,00:00:00.0154467,25511,1
PySlice.SliceInRange (well-formedness),Passed,00:00:00.0154354,23446,1
PyStr.JoinLastShorter (correctness),Passed,00:00:00.0154142,24232,1
PyNum.SumZeroAllZero (correctness),Passed,00:00:00.0154056,22256,1
ExtractPsf.NothingSelected (well-formedness),Passed,00:00:00.0153433,16891,1
ReadXml.AxisWindow (well-formedness),Passed,00:00:00.0152071,25106,1
BeadPsf.OneAbove (well-formedness),Passed,00:00:00.0151925,12715,1
LambdaCallback.DefaultDeclineStopsTest (well-formedness),Passed,00:00:00.0149788,14067,1
ReadXml.Recentred (well-formedness),Passed,00:00:00.0149318,29117,1
PlaneRanges.PyRangeUnitStep (well-formedness),Passed,00:00:00.0148205,15679,1
PyStr.DigitsValue (well-formedness),Passed,00:00:00.0147404,19333,1
FiniteDiff.ForwardRawTelescopes (well-formedness),Passed,00:00:00.0147340,21525,1
Images.SameVoxelNotTransitive (correctness),Passed,00:00:00.0146672,15226,1
PyStr.StripNothing (well-formedness),Passed,00:00:00.0145453,17616,1
LambdaCallback.FourthValueNeeded (correctness),Passed,00:00:00.0144559,19482,1
BeadPsf.LargestExtent (well-formedness),Passed,00:00:00.0144343,19615,1
PsfOtf.LineBase (well-formedness),Passed,00:00:00.0144102,8823,1
PyNum.Sum (well-formedness),Passed,00:00:00.0143133,9665,1
NdArray.PlaneWithin (well-formedness),Passed,00:00:00.0143083,24306,1
BeadPsf.CropRange (well-formedness),Passed,00:00:00.0143020,12687,1
DeconvolveApi.CancelFactor (correctness),Passed,00:00:00.0141436,7032,1
ExtractPsf.FieldPositive (correctness),Passed,00:00:00.0141377,19759,1
PsfOtf.Unshift (well-formedness),Passed,00:00:00.0140399,8911,1
DeconvolvePriv.PushedKeepsNewest (well-formedness),Passed,00:00:00.0139554,16948,1
Noise.CountAll (correctness),Passed,00:00:00.0139105,20185,1
PyStr.ZerosValue (well-formedness),Passed,00:00:00.0138738,14824,1
PsfOtf.ShiftBijection (well-formedness),Passed,00:00:00.0138119,9102,1
DeconvolvePriv.DeclineIsStrict (well-formedness),Passed,00:00:00.0137553,13779,1
Images.IsReal (well-formedness),Passed,00:00:00.0137483,9608,1
FileNames.SplitExtRootOf (well-formedness),Passed,00:00:00.0137232,23590,1
PyNum.SumAppend (correctness),Passed,00:00:00.0136748,21183,1
LambdaCallback.TiesStopOnlyHere (correctness),Passed,00:00:00.0135677,24270,1
Noise.LastBinCounts (correctness),Passed,00:00:00.0134882,19542,1
Noise.PhotonValueMonotone (correctness),Passed,00:00:00.0134860,20121,1
ExtractPsf.CountTrue (well-formedness),Passed,00:00:00.0134322,17255,1
PyNum.SumSingle (correctness),Passed,00:00:00.0133729,8823,1
PsfOtf.LineBaseNext (well-formedness),Passed,00:00:00.0132592,12366,1
PsfOtf.FlatIndexInLine (correctness),Passed,00:00:00.0132591,20316,1
Noise.PhotonCount (well-formedness),Passed,00:00:00.0132068,20005,1
Noise.HalfShare (well-formedness),Passed,00:00:00.0131759,4724,1
LambdaCallback.TiesStopOnlyHere (well-formedness),Passed,00:00:00.0131303,19733,1
Images.Nrm2IsSquared (correctness),Passed,00:00:00.0131071,15846,1
Images.Image.SameSettings (well-formedness),Passed,00:00:00.0130805,17556,1
ReadXml.RoundingDiffers (correctness),Passed,00:00:00.0128910,12801,1
ExtractPsf.ConstantSum (correctness),Passed,00:00:00.0128122,13473,1
PsfOtf.CentreToOrigin (well-formedness),Passed,00:00:00.0127764,7452,1
Images.SqDist (well-formedness),Passed,00:00:00.0127003,10467,1
Images.PadCovers (well-formedness),Passed,00:00:00.0126738,24779,1
ReadXml.RoundHalfAway (well-formedness),Passed,00:00:00.0126687,20717,1
PyStr.IsDigitGroup (well-formedness),Passed,00:00:00.0126616,21250,1
ReadXml.CentreDistSq (well-formedness),Passed,00:00:00.0126064,18234,1
PsfOtf.Psf.IsSet (well-formedness),Passed,00:00:00.0125835,9657,1
BeadPsf.OddUp (well-formedness),Passed,00:00:00.0125410,11749,1
DeconvolveApi.Deconvolve.Regularized (correctness),Passed,00:00:00.0125172,8012,1
LambdaCallback.DefaultDeclineStopsTest (correctness),Passed,00:00:00.0124750,20322,1
PsfOtf.DivBelow (correctness),Passed,00:00:00.0124541,12652,1
PsfOtf.Shift (well-formedness),Passed,00:00:00.0124354,8608,1
ReadXml.Origin (well-formedness),Passed,00:00:00.0123909,9310,1
FftwSettings.NewHandlersInvalidate (well-formedness),Passed,00:00:00.0123307,9639,1
PyNum.Trunc (well-formedness),Passed,00:00:00.0122719,9675,1
PlaneRanges.AllSized (well-formedness),Passed,00:00:00.0122421,8043,1
BeadPsf.AllShaped (well-formedness),Passed,00:00:00.0122034,18832,1
LambdaCallback.CapIsOneLater (well-formedness),Passed,00:00:00.0121818,14422,1
Noise.LastBinCounts (well-formedness),Passed,00:00:00.0121692,9464,1
PyNum.SumBounds (well-formedness),Passed,00:00:00.0121620,9545,1
Images.Apply (well-formedness),Passed,00:00:00.0121496,12390,1
DeconvolvePriv.Distance (well-formedness),Passed,00:00:00.0120580,13942,1
Noise.Bar (well-formedness),Passed,00:00:00.0120102,16849,1
PsfOtf.MulMono (correctness),Passed,00:00:00.0119078,4202,1
ExtractPsf.SupersampledExtent (correctness),Passed,00:00:00.0117862,14468,1
ReadXml.FieldHalf (well-formedness),Passed,00:00:00.0116928,4542,1
Images.SqDistToZeroIff (well-formedness),Passed,00:00:00.0116549,13400,1
ReadXml.FixedIndices (well-formedness),Passed,00:00:00.0116487,17501,1
PyNum.RoundHalfEvenUnique (correctness),Passed,00:00:00.0116358,24675,1
PsfOtf.CentreToOrigin (correctness),Passed,00:00:00.0116060,11299,1
Noise.Count (well-formedness),Passed,00:00:00.0115814,19808,1
ExtractPsf.OddForm (correctness),Passed,00:00:00.0114111,6292,1
BeadPsf.LargestExtentStep (well-formedness),Passed,00:00:00.0113887,19693,1
PyNum.ModUnique (correctness),Passed,00:00:00.0113607,18241,1
DeconvolveApi.Deconvolve.MaxIterations (well-formedness),Passed,00:00:00.0113417,9602,1
ReadXml.PrefixSumStep (correctness),Passed,00:00:00.0113264,13154,1
Images.SqDistAppend (well-formedness),Passed,00:00:00.0113141,12505,1
ReadXml.OddMax (well-formedness),Passed,00:00:00.0112760,11301,1
ReadXml.BlurStep (well-formedness),Passed,00:00:00.0112495,13749,1
PsfOtf.TruncInBounds (correctness),Passed,00:00:00.0112341,12989,1
ExtractPsf.Sized (well-formedness),Passed,00:00:00.0112291,13335,1
PyNum.SumZeroAllZero (well-formedness),Passed,00:00:00.0112096,12072,1
ReadXml.FixSteps (well-formedness),Passed,00:00:00.0111753,11952,1
PyStr.JoinLastShorter (well-formedness),Passed,00:00:00.0111312,12208,1
PsfOtf.GetInd (well-formedness),Passed,00:00:00.0110082,10721,1
BeadPsf.ReprWithoutFilter (correctness),Passed,00:00:00.0109990,11351,1
FiniteDiff.QuotientBounded (correctness),Passed,00:00:00.0109895,13891,1
ReadXml.Clamp (well-formedness),Passed,00:00:00.0109849,11624,1
Images.SqDistToPrefix (well-formedness),Passed,00:00:00.0109686,12954,1
Images.DataSize (well-formedness),Passed,00:00:00.0109567,13959,1
Noise.ShareWhole (correctness),Passed,00:00:00.0109540,6604,1
Noise.Mass (well-formedness),Passed,00:00:00.0108936,7129,1
FileNames.PathJoin (well-formedness),Passed,00:00:00.0108758,10016,1
Noise.MinMaxAttained (well-formedness),Passed,00:00:00.0108468,12695,1
PyNum.SumNonNegative (correctness),Passed,00:00:00.0108287,14032,1
DeconvolvePriv.OnlyCapStopsEarly (correctness),Passed,00:00:00.0107888,9499,1
PyStr.AllDigits (well-formedness),Passed,00:00:00.0107756,10953,1
FiniteDiff.Sign (well-formedness),Passed,00:00:00.0107718,5997,1
DeconvolvePriv.Pushed (well-formedness),Passed,00:00:00.0107476,15338,1
NdArray.Volume (well-formedness),Passed,00:00:00.0106291,8235,1
Images.SqDistConcat (well-formedness),Passed,00:00:00.0106136,12819,1
Noise.UnitGainCounts (correctness),Passed,00:00:00.0106069,14136,1
ExtractPsf.OddHalf (correctness),Passed,00:00:00.0105976,5915,1
DeconvolveApi.ScaledNonZero (correctness),Passed,00:00:00.0105482,10193,1
Noise.HalfShareTwice (well-formedness),Passed,00:00:00.0105428,5830,1
Images.Image.SameDims (well-formedness),Passed,00:00:00.0105295,10972,1
Noise.UnitGainCounts (well-formedness),Passed,00:00:00.0105272,8789,1
ExtractPsf.GridDistSq (well-formedness),Passed,00:00:00.0105237,9896,1
Noise.RoundMonotone (correctness),Passed,00:00:00.0104954,16675,1
Images.RowStart (well-formedness),Passed,00:00:00.0104662,10072,1
BeadPsf.Footprint (well-formedness),Passed,00:00:00.0104662,10427,1
Noise.HalfShareTwice (correctness),Passed,00:00:00.0104387,7264,1
ReadXml.FixIndicesCanCross (correctness),Passed,00:00:00.0103810,14093,1
LambdaCallback.FourthValueNeeded (well-formedness),Passed,00:00:00.0102650,19534,1
FiniteDiff.Added (well-formedness),Passed,00:00:00.0102546,9924,1
FftwSettings.InitIdempotent (well-formedness),Passed,00:00:00.0102394,11456,1
PySlice.Index (well-formedness),Passed,00:00:00.0102008,15964,1
Images.SqDistZeroIff (well-formedness),Passed,00:00:00.0101640,11016,1
FftwSettings.ImageSettings.Copy (well-formedness),Passed,00:00:00.0101631,12616,1
PyNum.RoundHalfEvenUnique (well-formedness),Passed,00:00:00.0101137,7129,1
Images.Image.Allocated (well-formedness),Passed,00:00:00.0100137,8035,1
FftwSettings.ImageSettings.Same (well-formedness),Passed,00:00:00.0100084,8377,1
Images.MinModSymmetric (correctness),Passed,00:00:00.0099922,8858,1
BeadPsf.ReprWithoutFilter (well-formedness),Passed,00:00:00.0099788,11094,1
PyStr.Join (well-formedness),Passed,00:00:00.0099308,15005,1
Noise.ShareAdd (well-formedness),Passed,00:00:00.0098604,6423,1
LambdaCallback.CapIsOneLater (correctness),Passed,00:00:00.0097936,14322,1
Noise.Rounded (well-formedness),Passed,00:00:00.0097698,7346,1
Noise.TwoReBins (well-formedness),Passed,00:00:00.0096980,14600,1
LambdaCallback.Min3 (well-formedness),Passed,00:00:00.0096191,8156,1
DeconvolvePriv.LambdaDeclined (well-formedness),Passed,00:00:00.0095848,8313,1
FftwSettings.NewHandlersInvalidate (correctness),Passed,00:00:00.0095222,8904,1
ExtractPsf.DropAll (correctness),Passed,00:00:00.0095171,7979,1
Noise.CountAll (well-formedness),Passed,00:00:00.0095032,9874,1
Images.Nrm2IsSquared (well-formedness),Passed,00:00:00.0094856,9619,1
Noise.CountTotal (well-formedness),Passed,00:00:00.0094232,14620,1
FiniteDiff.ZeroOver (well-formedness),Passed,00:00:00.0093847,3551,1
PyStr.EndsWith (well-formedness),Passed,00:00:00.0093794,8237,1
PyNum.Ceil (well-formedness),Passed,00:00:00.0093522,5218,1
ExtractPsf.Mean (well-formedness),Passed,00:00:00.0092300,9402,1
Noise.CountWithin (correctness),Passed,00:00:00.0091099,15621,1
PyNum.MaxInt (well-formedness),Passed,00:00:00.0090632,5382,1
Noise.ShareAdd (correctness),Passed,00:00:00.0090590,9626,1
FiniteDiff.QuotientBounded (well-formedness),Passed,00:00:00.0090584,4223,1
Noise.CollapsedReBins (well-formedness),Passed,00:00:00.0090313,13907,1
ReadXml.PrefixSumStep (well-formedness),Passed,00:00:00.0089836,9321,1
FftwSettings.InitIdempotent (correctness),Passed,00:00:00.0089800,10252,1
ExtractPsf.ConstantSum (well-formedness),Passed,00:00:00.0089788,9003,1
Noise.PhotonValueMonotone (well-formedness),Passed,00:00:00.0089380,9247,1
Noise.PoissonGain (well-formedness),Passed,00:00:00.0089122,14939,1
ExtractPsf.PositiveProduct (correctness),Passed,00:00:00.0087049,4529,1
LambdaCallback.LambdaLog._ctor (correctness),Passed,00:00:00.0087004,11914,1
ExtractPsf.DropAll (well-formedness),Passed,00:00:00.0086847,5686,1
Images.SqDistTo (well-formedness),Passed,00:00:00.0086759,12002,1
Images.Rows (well-formedness),Passed,00:00:00.0085243,7009,1
SliceSpec.NoBrackets (well-formedness),Passed,00:00:00.0084952,11068,1
ReadXml.LateralResolution (well-formedness),Passed,00:00:00.0084624,5314,1
FiniteDiff.MinReal (well-formedness),Passed,00:00:00.0083313,5382,1
DeconvolveApi.Deconvolve.Regularized (well-formedness),Passed,00:00:00.0083170,8822,1
Images.LastDim (well-formedness),Passed,00:00:00.0082926,12433,1
LambdaCallback.NotAboveLastThree (well-formedness),Passed,00:00:00.0082385,10031,1
DeconvolvePriv.DefaultMaxIterations (well-formedness),Passed,00:00:00.0081613,3753,1
ExtractPsf.DivBelow (correctness),Passed,00:00:00.0080939,3966,1
Noise.Share (well-formedness),Passed,00:00:00.0080574,4686,1
ExtractPsf.Drop (well-formedness),Passed,00:00:00.0080482,4781,1
BeadPsf.AxisAccepted (well-formedness),Passed,00:00:00.0080076,5837,1
Images.RowBelow (correctness),Passed,00:00:00.0080021,10074,1
Noise.ShareWhole (well-formedness),Passed,00:00:00.0079191,4989,1
Noise.CountAbove (well-formedness),Passed,00:00:00.0077497,9633,1
Noise.DivBelowOne (well-formedness),Passed,00:00:00.0077465,4433,1
PyNum.DivBack (correctness),Passed,00:00:00.0077191,3300,1
FiniteDiff.ZeroOver (correctness),Passed,00:00:00.0076795,4162,1
Noise.ReBin (well-formedness),Passed,00:00:00.0076632,6879,1
Noise.CountWithin (well-formedness),Passed,00:00:00.0076518,10021,1
Noise.DivBelowOne (correctness),Passed,00:00:00.0075346,4790,1
ExtractPsf.OddHalf (well-formedness),Passed,00:00:00.0075287,4943,1
PsfOtf.DivBelow (well-formedness),Passed,00:00:00.0074946,4268,1
ExtractPsf.InPx (well-formedness),Passed,00:00:00.0074073,4685,1
PyNum.Abs (well-formedness),Passed,00:00:00.0072701,6077,1
Noise.DivAddOne (correctness),Passed,00:00:00.0071732,7203,1
Images.RowBelow (well-formedness),Passed,00:00:00.0070942,4269,1
FiniteDiff.SquareGrows (correctness),Passed,00:00:00.0070910,6706,1
PyNum.MulAtLeast (correctness),Passed,00:00:00.0070232,4037,1
DeconvolvePriv.LambdaStackSize (well-formedness),Passed,00:00:00.0070113,3753,1
FiniteDiff.ScaleGrows (correctness),Passed,00:00:00.0070029,3688,1
ReadXml.AxialResolution (well-formedness),Passed,00:00:00.0068982,5340,1
PyNum.MinInt (well-formedness),Passed,00:00:00.0068927,5382,1
ReadXml.BlockEnd (well-formedness),Passed,00:00:00.0068854,4426,1
Noise.TruncStep (correctness),Passed,00:00:00.0068702,6389,1
FiniteDiff.SquareNonNegative (correctness),Passed,00:00:00.0068376,3946,1
FiniteDiff.SafeQuotient (well-formedness),Passed,00:00:00.0067903,4681,1
ReadXml.Shift (well-formedness),Passed,00:00:00.0067566,4350,1
PlaneRanges.MulSucc (correctness),Passed,00:00:00.0067385,3212,1
PyNum.SumNonNegative (well-formedness),Passed,00:00:00.0067134,9116,1
LambdaCallback.LastIteration (well-formedness),Passed,00:00:00.0066069,3754,1
FiniteDiff.Ends (well-formedness),Passed,00:00:00.0065346,7366,1
BeadPsf.DivBetween (correctness),Passed,00:00:00.0064397,4316,1
BeadPsf.DivBetween (well-formedness),Passed,00:00:00.0063079,4021,1
PyNum.ModUnique (well-formedness),Passed,00:00:00.0061886,5105,1
PyNum.SqZero (correctness),Passed,00:00:00.0060877,5132,1
DeconvolveApi.CancelFactor (well-formedness),Passed,00:00:00.0060243,3451,1
Noise.DivAddOne (well-formedness),Passed,00:00:00.0058448,3283,1
BeadPsf.IsOdd (well-formedness),Passed,00:00:00.0057234,4326,1
ExtractPsf.DivSelf (well-formedness),Passed,00:00:00.0056952,3552,1
ExtractPsf.DivBelow (well-formedness),Passed,00:00:00.0056326,3753,1
ExtractPsf.DivSelf (correctness),Passed,00:00:00.0054676,3938,1
PyNum.DivBack (well-formedness),Passed,00:00:00.0049849,3064,1
