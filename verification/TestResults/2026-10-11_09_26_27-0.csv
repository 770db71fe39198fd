TestResult.DisplayName,TestResult.Outcome,TestResult.Duration,TestResult.ResourceCount,RandomSeed
FileNames.OrderedTiffsNames (correctness),Failed,00:00:01.0800641,2102464,3
Noise.EstimateGainPoisson (correctness),Passed,00:00:00.7732093,1876509,3
PsfOtf.Psf.Otf (correctness),Passed,00:00:00.5923027,733125,3
DeconvolvePriv.DeconvolvePrivate.Deconvolve (correctness),Passed,00:00:00.5093921,788810,3
ReadXml.SpotsToPsf (well-formedness),Passed,00:00:00.4738324,398921,3
DeconvolvePriv.DeconvolvePrivate.Deconvolve (well-formedness),Passed,00:00:00.4390111,574622,3
DeconvolvePriv.DeconvolvePrivate.Iterate (correctness),Passed,00:00:00.3951514,544235,3
FiniteDiff.ConstantHasZeroDv (correctness),Passed,00:00:00.3831240,1138928,3
FileNames.TimeOfOldStackName (correctness),Passed,00:00:00.3688160,1385934,3
ReadXml.AddRowSamples (correctness),Passed,00:00:00.3645042,550998,3
DeconvolveApi.Deconvolve.Deconvolve (well-formedness),Passed,00:00:00.3569473,613683,3
DeconvolvePriv.StackBounded (correctness),Passed,00:00:00.3421454,515761,3
ReadXml.SumCandidates (correctness),Passed,00:00:00.3334515,491486,3
BeadPsf.PsfGenerator._ctor (correctness),Passed,00:00:00.3251874,497261,3
Noise.HistIsDensity (correctness),Passed,00:00:00.3080901,813694,3
ReadXml.Spots2Psf (correctness),Passed,00:00:00.2993846,394085,3
DeconvolvePriv.DeconvolvePrivate.Prepare (correctness),Passed,00:00:00.2969267,392761,3
FiniteDiff.ConstantHasZeroDv (well-formedness),Passed,00:00:00.2929496,753059,3
DeconvolveApi.Deconvolve.Deconvolve (correctness),Passed,00:00:00.2889442,388193,3
DeconvolveApi.InterpAtUnitFree (correctness),Passed,00:00:00.2805638,1424899,3
ReadXml.Spots2Psf (well-formedness),Passed,00:00:00.2804575,355845,3
DeconvolvePriv.DefaultStopsAtCap (correctness),Passed,00:00:00.2782294,432467,3
ReadXml.ClusterWindows (correctness),Passed,00:00:00.2697436,824002,3
DeconvolvePriv.UnregularizedRunsToCap (correctness),Passed,00:00:00.2681481,388332,3
ExtractPsf.AcceptedPeakIsOne (correctness),Passed,00:00:00.2680950,353038,3
FiniteDiff.Grad (well-formedness),Passed,00:00:00.2645435,598640,3
ReadXml.SumCandidates (well-formedness),Passed,00:00:00.2632480,234920,3
ExtractPsf.ExtractPsfs (correctness),Passed,00:00:00.2504357,361525,3
FiniteDiff.LineEntry (correctness),Passed,00:00:00.2497975,546165,3
PyStr.LastFieldSplit (correctness),Passed,00:00:00.2404765,1108597,3
ExtractPsf.AverageCandidates (correctness),Passed,00:00:00.2366547,305477,3
ExtractPsf.AverageInUnitRange (correctness),Passed,00:00:00.2264156,329165,3
ReadXml.CandidateOf (well-formedness),Passed,00:00:00.2259671,271161,3
ReadXml.Strided (well-formedness),Passed,00:00:00.2239834,625309,3
ExtractPsf.Extraction (well-formedness),Passed,00:00:00.2239653,303893,3
ReadXml.Binned (well-formedness),Passed,00:00:00.2196290,358904,3
ExtractPsf.AverageCandidates (well-formedness),Passed,00:00:00.2134770,231490,3
DeconvolvePriv.RunStep (correctness),Passed,00:00:00.2124744,291487,3
PyStr.LastField (well-formedness),Passed,00:00:00.2118843,594854,3
PlaneRanges.CalcStacksAverage (correctness),Passed,00:00:00.2085925,539967,3
BeadPsf.MeanVolumeBetween (correctness),Passed,00:00:00.2044097,560088,3
FiniteDiff.GradAlongLines (correctness),Passed,00:00:00.2031369,404907,3
ExtractPsf.AccumulateCandidates (correctness),Passed,00:00:00.2025886,269600,3
Images.Image.GetStats (correctness),Passed,00:00:00.1969665,834702,3
DeconvolvePriv.DeconvolvePrivate.Convolve (correctness),Passed,00:00:00.1969497,250818,3
FiniteDiff.DiffLine (correctness),Passed,00:00:00.1962899,412299,3
ReadXml.Bin (correctness),Passed,00:00:00.1949008,270676,3
DeconvolvePriv.DeconvolvePrivate.Convolve (well-formedness),Passed,00:00:00.1948606,220205,3
BeadPsf.FilterBBoxes (correctness),Passed,00:00:00.1945218,637548,3
PsfOtf.FillPlane (correctness),Passed,00:00:00.1937372,323507,3
DeconvolvePriv.UserCallbackKeepsStack (correctness),Passed,00:00:00.1918167,423000,3
SliceSpec.ParseSliceSpec (correctness),Passed,00:00:00.1898514,368716,3
PyStr.ParseIntStr (correctness),Passed,00:00:00.1881530,356488,3
ReadXml.SummedPlanesStep (correctness),Passed,00:00:00.1880048,243441,3
DeconvolveApi.Deconvolve.Convolve (correctness),Passed,00:00:00.1879117,252240,3
ExtractPsf.AverageInUnitRange (well-formedness),Passed,00:00:00.1877390,220407,3
BeadPsf.PsfGenerator.CalcMeanPsf (correctness),Passed,00:00:00.1870251,357200,3
ExtractPsf.AveragedShape (correctness),Passed,00:00:00.1867224,239870,3
DeconvolveApi.Deconvolve.Convolve (well-formedness),Passed,00:00:00.1851882,230437,3
ExpandShape.Fill (well-formedness),Passed,00:00:00.1813802,762062,3
ExtractPsf.ExtractPsfs (well-formedness),Passed,00:00:00.1803443,291014,3
Images.Image.CopyRow (correctness),Passed,00:00:00.1792473,1187895,3
FiniteDiff.Zip (well-formedness),Passed,00:00:00.1771279,350208,3
Noise.WideNoiseSucceeds (correctness),Passed,00:00:00.1744592,442067,3
ReadXml.CandidatesFit (correctness),Passed,00:00:00.1734137,173315,3
ExtractPsf.Verdicts (well-formedness),Passed,00:00:00.1726924,211616,3
ExtractPsf.Averaged (well-formedness),Passed,00:00:00.1720654,235141,3
PsfOtf.FillLine (correctness),Passed,00:00:00.1711576,242071,3
FiniteDiff.Dv (well-formedness),Passed,00:00:00.1696929,351625,3
DeconvolvePriv.DeconvolvePrivate.Prepare (well-formedness),Passed,00:00:00.1688820,185406,3
Images.Image.CombineRow (correctness),Passed,00:00:00.1667247,454950,3
ExtractPsf.Assess (well-formedness),Passed,00:00:00.1639997,183098,3
NdArray.Crop (well-formedness),Passed,00:00:00.1620185,348416,3
ReadXml.SummedPlanesMean (correctness),Passed,00:00:00.1589958,202485,3
ExtractPsf.RollPermutes (correctness),Passed,00:00:00.1566141,420008,3
ReadXml.Candidate (correctness),Passed,00:00:00.1565349,318412,3
Images.Image.Swap (correctness),Passed,00:00:00.1562097,282624,3
Images.Image.StatsRow (correctness),Passed,00:00:00.1559199,410287,3
ReadXml.Block (well-formedness),Passed,00:00:00.1520962,343289,3
ExtractPsf.PositivePeaksAtMostOne (correctness),Passed,00:00:00.1513433,197764,3
ExtractPsf.DiscardedExactly (correctness),Passed,00:00:00.1506143,210599,3
PlaneRanges.FovDropsLastRow (correctness),Passed,00:00:00.1468452,357910,3
Images.Image.AddRowSqDist (correctness),Passed,00:00:00.1449739,320587,3
PsfOtf.Psf.Otf (well-formedness),Passed,00:00:00.1436561,172138,3
ExtractPsf.PositivePeaks (well-formedness),Passed,00:00:00.1406810,159672,3
ExpandShape.GrowingEmbedsData (correctness),Passed,00:00:00.1400603,661842,3
ExtractPsf.BackgroundBounded (correctness),Passed,00:00:00.1391625,282422,3
DeconvolvePriv.Iteration (well-formedness),Passed,00:00:00.1385533,171413,3
ReadXml.Candidates (well-formedness),Passed,00:00:00.1381508,192656,3
ReadXml.RowsAddedStep (correctness),Passed,00:00:00.1379544,194845,3
ExtractPsf.AveragedShape (well-formedness),Passed,00:00:00.1366466,241772,3
DeconvolvePriv.UserCallbackKeepsStack (well-formedness),Passed,00:00:00.1363913,130019,3
DeconvolvePriv.RunStep (well-formedness),Passed,00:00:00.1351351,173057,3
ReadXml.AddVolume (well-formedness),Passed,00:00:00.1345969,239457,3
BeadPsf.PsfGenerator.MeanPsf (well-formedness),Passed,00:00:00.1340643,262561,3
Images.Image.At (well-formedness),Passed,00:00:00.1336926,523720,3
ExtractPsf.AcceptedPeakIsOne (well-formedness),Passed,00:00:00.1327068,178877,3
BeadPsf.PsfGenerator.MeanPsf (correctness),Passed,00:00:00.1302007,162797,3
Images.RowBelow (correctness),Passed,00:00:00.1290695,9916,3
ReadXml.CropWindow (well-formedness),Passed,00:00:00.1287615,242339,3
ExtractPsf.BoundaryCropInside (well-formedness),Passed,00:00:00.1286652,236076,3
ReadXml.Candidate (well-formedness),Passed,00:00:00.1282510,162352,3
PlaneRanges.MinimalFov (well-formedness),Passed,00:00:00.1258002,145775,3
BeadPsf.KeptCrops (well-formedness),Passed,00:00:00.1257503,197938,3
Images.Pad (well-formedness),Passed,00:00:00.1255791,56267,3
ReadXml.AddPlaneSamples (correctness),Passed,00:00:00.1248890,191642,3
ReadXml.BinnedWithin (correctness),Passed,00:00:00.1247823,175032,3
DeconvolvePriv.DeconvolvePrivate.SetFftwHandlers (correctness),Passed,00:00:00.1230589,157407,3
DeconvolvePriv.LaterLambdaClamped (correctness),Passed,00:00:00.1221281,146875,3
DeconvolvePriv.UnregularizedRunsToCap (well-formedness),Passed,00:00:00.1208044,134003,3
SliceSpec.ApplyFields (correctness),Passed,00:00:00.1202743,262598,3
Noise.HistPrefix (correctness),Passed,00:00:00.1199156,564471,3
PsfOtf.Sample (well-formedness),Passed,00:00:00.1197612,16719,3
PsfOtf.CentresCoincide (correctness),Passed,00:00:00.1197262,12580,3
BeadPsf.PsfGenerator._ctor (well-formedness),Passed,00:00:00.1197039,182207,3
Noise.EstimateGainPoisson (well-formedness),Passed,00:00:00.1193843,134511,3
Noise.EstimateGain (well-formedness),Passed,00:00:00.1185636,175400,3
FileNames.Str1965 (correctness),Passed,00:00:00.1152474,218603,3
DeconvolvePriv.DeconvolvePrivate.Ask (correctness),Passed,00:00:00.1143684,166979,3
Images.Image.CopyIn (correctness),Passed,00:00:00.1139128,552646,3
DeconvolvePriv.DeconvolvePrivate.Ask (well-formedness),Passed,00:00:00.1133272,146370,3
BeadPsf.CropPsfs (correctness),Passed,00:00:00.1129164,186625,3
SliceSpec.SingleNumberIsStop (correctness),Passed,00:00:00.1126928,99705,3
ExtractPsf.PositivePeaksAtMostOne (well-formedness),Passed,00:00:00.1114422,164588,3
BeadPsf.PsfGenerator.CalcMeanPsf (well-formedness),Passed,00:00:00.1113379,262868,3
ReadXml.TallyStep (correctness),Passed,00:00:00.1113306,124444,3
PsfOtf.VoxelValue (correctness),Passed,00:00:00.1111540,243507,3
BeadPsf.KeptCropsStep (correctness),Passed,00:00:00.1111216,122817,3
ExpandShape.GrowingEmbedsData (well-formedness),Passed,00:00:00.1110497,218479,3
FileNames.OrderedTiffs (well-formedness),Passed,00:00:00.1107758,133128,3
ExtractPsf.FwhmCount (well-formedness),Passed,00:00:00.1105473,118941,3
DeconvolvePriv.DeconvolvePrivate.ClearFftwHandlers (correctness),Passed,00:00:00.1081059,144149,3
DeconvolvePriv.DeconvolvePrivate.CallbackDefault (correctness),Passed,00:00:00.1075956,109108,3
PsfOtf.InterpolatedPlacement (correctness),Passed,00:00:00.1072807,125265,3
FileNames.OrderedEntriesSorted (correctness),Passed,00:00:00.1070056,196718,3
Noise.NarrowNoiseRaises (well-formedness),Passed,00:00:00.1067036,114260,3
Images.Image.CombineRow (well-formedness),Passed,00:00:00.1058991,120337,3
FileNames.TimeOfStackName (correctness),Passed,00:00:00.1052124,194000,3
ReadXml.SummedPlanesStep (well-formedness),Passed,00:00:00.1045556,128818,3
ReadXml.TallyCountsAccepted (correctness),Passed,00:00:00.1044907,200077,3
ReadXml.TallyCountsAccepted (well-formedness),Passed,00:00:00.1044726,92329,3
PsfOtf.Resample (correctness),Passed,00:00:00.1035705,139493,3
DeconvolvePriv.Run (well-formedness),Passed,00:00:00.1033249,152172,3
PlaneRanges.StackSumAppend (correctness),Passed,00:00:00.1032573,195663,3
FileNames.ParseTimeOfStackPath (correctness),Passed,00:00:00.1032089,274282,3
Images.Image.Nrm2 (correctness),Passed,00:00:00.1025021,266988,3
ReadXml.Expanded (well-formedness),Passed,00:00:00.1018542,119572,3
FileNames.Insert (well-formedness),Passed,00:00:00.1017746,257447,3
FiniteDiff.GradAlongLines (well-formedness),Passed,00:00:00.1014081,140781,3
DeconvolvePriv.PushedKeepsNewest (correctness),Passed,00:00:00.1012366,27074,3
Images.Image.Combine (correctness),Passed,00:00:00.1010333,204765,3
ReadXml.BinnedWithin (well-formedness),Passed,00:00:00.1006147,110465,3
ExtractPsf.Window3 (well-formedness),Passed,00:00:00.1004305,139931,3
DeconvolvePriv.LaterLambdaClamped (well-formedness),Passed,00:00:00.1002146,123332,3
ReadXml.RowsAdded (well-formedness),Passed,00:00:00.0997854,117966,3
FiniteDiff.ForwardRaw (well-formedness),Passed,00:00:00.0993213,26951,3
FileNames.OrderedEntriesSorted (well-formedness),Passed,00:00:00.0990046,91044,3
ExpandShape.OddShrinkRaises (correctness),Passed,00:00:00.0983534,126047,3
SliceSpec.ParsePart (well-formedness),Passed,00:00:00.0981754,69323,3
FileNames.DottedStemParsers (correctness),Passed,00:00:00.0981739,185962,3
DeconvolvePriv.FirstLambdaMustBeNonNegative (well-formedness),Passed,00:00:00.0978917,110771,3
Noise.NarrowNoiseRaises (correctness),Passed,00:00:00.0977340,153367,3
DeconvolvePriv.FirstScaledLambda (correctness),Passed,00:00:00.0974601,150657,3
DeconvolvePriv.DefaultStopsAtCap (well-formedness),Passed,00:00:00.0973487,130193,3
ReadXml.DivVolume (well-formedness),Passed,00:00:00.0972130,177277,3
FiniteDiff.LineEntry (well-formedness),Passed,00:00:00.0969949,193356,3
ReadXml.CandidatesFit (well-formedness),Passed,00:00:00.0960006,168631,3
PySlice.Bound (well-formedness),Passed,00:00:00.0957142,13702,3
PySlice.Lo (well-formedness),Passed,00:00:00.0956862,15346,3
ExtractPsf.UniformFirstIteration (correctness),Passed,00:00:00.0955636,127489,3
FiniteDiff.ZeroQuotient (well-formedness),Passed,00:00:00.0954415,128475,3
PsfOtf.OwnGridCopies (correctness),Passed,00:00:00.0949709,134668,3
DeconvolvePriv.FirstScaledLambda (well-formedness),Passed,00:00:00.0946017,146412,3
ReadXml.ExpandWindow (correctness),Passed,00:00:00.0934246,275398,3
SliceSpec.FieldSlice (well-formedness),Passed,00:00:00.0931712,84895,3
PsfOtf.Resample (well-formedness),Passed,00:00:00.0929653,81229,3
ExtractPsf.AccumulateCandidates (well-formedness),Passed,00:00:00.0924676,186846,3
DeconvolvePriv.DeconvolvePrivate.Iterate (well-formedness),Passed,00:00:00.0923800,209756,3
ExtractPsf.NormalisedPeak (correctness),Passed,00:00:00.0922315,188901,3
ExpandShape.ExpandedShape (correctness),Passed,00:00:00.0921029,137877,3
DeconvolveApi.SameSamples (correctness),Passed,00:00:00.0917390,316565,3
PsfOtf.StoreVoxel (correctness),Passed,00:00:00.0914657,307907,3
ReadXml.ExpandBoth (correctness),Passed,00:00:00.0913468,226068,3
FileNames.OrderedEntriesPermute (correctness),Passed,00:00:00.0900971,131349,3
ExtractPsf.BoundaryCropInside (correctness),Passed,00:00:00.0898684,214035,3
Noise.Clamped (well-formedness),Passed,00:00:00.0898249,35356,3
PlaneRanges.PlaneImage (well-formedness),Passed,00:00:00.0889343,92334,3
DeconvolvePriv.ArgsMeaning (well-formedness),Passed,00:00:00.0889264,121018,3
PyNum.SumBounds (correctness),Passed,00:00:00.0888112,146897,3
ExtractPsf.EstimateBackground (correctness),Passed,00:00:00.0887455,109853,3
PsfOtf.SingleSampleAxisVanishes (correctness),Passed,00:00:00.0886863,120080,3
DeconvolvePriv.DeconvolvePrivate.SetFftwHandlers (well-formedness),Passed,00:00:00.0883367,91488,3
ReadXml.SummedPlanes (well-formedness),Passed,00:00:00.0882768,109946,3
PlaneRanges.StackSumVoxel (correctness),Passed,00:00:00.0877645,114713,3
PsfOtf.PartialStep (correctness),Passed,00:00:00.0869377,117229,3
FileNames.OrderedTiffsOld (well-formedness),Passed,00:00:00.0866297,195384,3
DeconvolvePriv.FirstLambdaMustBeNonNegative (correctness),Passed,00:00:00.0863929,119504,3
BeadPsf.KeptBoxesFitFootprint (correctness),Passed,00:00:00.0861973,286205,3
Noise.HistLastBar (correctness),Passed,00:00:00.0857107,326606,3
DeconvolvePriv.Correction (well-formedness),Passed,00:00:00.0856105,87047,3
BeadPsf.MeanVolume (well-formedness),Passed,00:00:00.0855825,154070,3
FftwSettings.NullPlanOnlyFromUser (well-formedness),Passed,00:00:00.0855347,35298,3
ReadXml.AddPlaneSamples (well-formedness),Passed,00:00:00.0853273,114727,3
DeconvolvePriv.StackBounded (well-formedness),Passed,00:00:00.0852218,130078,3
FileNames.OrderedTiffsNames (well-formedness),Passed,00:00:00.0850594,114262,3
Images.Image.InvDivideImage (correctness),Passed,00:00:00.0847530,92786,3
PlaneRanges.WritePlanes (correctness),Passed,00:00:00.0846229,224949,3
DeconvolveApi.ResamplingUnitFree (correctness),Passed,00:00:00.0841863,131561,3
SliceSpec.SplitAt (correctness),Passed,00:00:00.0839433,282926,3
ReadXml.BlockMeanWithin (correctness),Passed,00:00:00.0839241,127214,3
BeadPsf.ZeroBelow (correctness),Passed,00:00:00.0838993,75951,3
Images.Image.GetImage (correctness),Passed,00:00:00.0837003,262100,3
PlaneRanges.NoSlashInZFill (correctness),Passed,00:00:00.0836460,162778,3
FileNames.StackNameExample (correctness),Passed,00:00:00.0831518,256258,3
SliceSpec.ApplyFields (well-formedness),Passed,00:00:00.0827617,104209,3
PyNum.SumScale (correctness),Passed,00:00:00.0827167,221398,3
ReadXml.BlockWithin (correctness),Passed,00:00:00.0813817,90902,3
FiniteDiff.BackwardIsShiftedForward (correctness),Passed,00:00:00.0811344,61172,3
ReadXml.TallyFailureSticks (well-formedness),Passed,00:00:00.0806545,87610,3
DeconvolvePriv.ArgsMeaning (correctness),Passed,00:00:00.0803356,154413,3
ReadXml.RowsAddedStep (well-formedness),Passed,00:00:00.0803028,128153,3
ReadXml.TallyStep (well-formedness),Passed,00:00:00.0800721,96246,3
ExtractPsf.CandidateCrop (well-formedness),Passed,00:00:00.0800556,77429,3
Images.RealRowsAt (correctness),Passed,00:00:00.0799120,782841,3
BeadPsf.AvBBoxSizeBetween (correctness),Passed,00:00:00.0798593,275940,3
ReadXml.FixClusterWindow (correctness),Passed,00:00:00.0793926,301112,3
BeadPsf.AllInteriorKept (correctness),Passed,00:00:00.0790921,146990,3
PsfOtf.FillPlane (well-formedness),Passed,00:00:00.0789908,100591,3
ReadXml.ZeroVolume (well-formedness),Passed,00:00:00.0787767,122304,3
Images.Image.Set (correctness),Passed,00:00:00.0785335,149051,3
PlaneRanges.CropPlanesSelects (well-formedness),Passed,00:00:00.0785019,37832,3
ReadXml.BlockMeanWithin (well-formedness),Passed,00:00:00.0784824,84376,3
ReadXml.TallyOf (well-formedness),Passed,00:00:00.0783107,132802,3
ExpandShape.ExpandToShape (well-formedness),Passed,00:00:00.0772728,109822,3
ExtractPsf.SumAtMostCount (correctness),Passed,00:00:00.0770664,115123,3
FileNames.KeptTiffs (well-formedness),Passed,00:00:00.0764935,47074,3
ExtractPsf.BackgroundOf (well-formedness),Passed,00:00:00.0764895,76053,3
PlaneRanges.FovDropsLastRow (well-formedness),Passed,00:00:00.0763669,135507,3
BeadPsf.CalcAvBBoxSize (correctness),Passed,00:00:00.0763134,109656,3
ExpandShape.ExpandedShape (well-formedness),Passed,00:00:00.0761785,135501,3
ReadXml.HigherType (well-formedness),Passed,00:00:00.0759548,193757,3
ExtractPsf.BackgroundFrom (well-formedness),Passed,00:00:00.0759407,80836,3
DeconvolveApi.Deconvolve.ClearSnr (correctness),Passed,00:00:00.0757382,110263,3
Noise.ClampNegatives (well-formedness),Passed,00:00:00.0755874,29412,3
ReadXml.Bin (well-formedness),Passed,00:00:00.0753710,105060,3
FiniteDiff.Differences (well-formedness),Passed,00:00:00.0749919,104103,3
ReadXml.TallyFailureSticks (correctness),Passed,00:00:00.0743985,114641,3
Images.StatsTo (well-formedness),Passed,00:00:00.0741995,137385,3
DeconvolvePriv.DeconvolvePrivate._ctor (correctness),Passed,00:00:00.0741519,113029,3
PsfOtf.Interpolated (well-formedness),Passed,00:00:00.0740639,91150,3
PyStr.DigitChar (well-formedness),Passed,00:00:00.0734039,9974,3
DeconvolveApi.Deconvolve.EnableRegularization (well-formedness),Passed,00:00:00.0733553,73670,3
BeadPsf.Threshold (correctness),Passed,00:00:00.0726905,178975,3
Noise.HistInnerBars (correctness),Passed,00:00:00.0726667,140269,3
PlaneRanges.PlaneFilesDistinct (correctness),Passed,00:00:00.0725111,101112,3
ExtractPsf.UniformFirstIteration (well-formedness),Passed,00:00:00.0723267,80402,3
DeconvolvePriv.UserAnswer (well-formedness),Passed,00:00:00.0723064,68682,3
ExpandShape.OddShrinkRaises (well-formedness),Passed,00:00:00.0721722,105625,3
ReadXml.TallyFailsIff (correctness),Passed,00:00:00.0720327,153119,3
BeadPsf.CropPsfFits (correctness),Passed,00:00:00.0719828,173946,3
ReadXml.SummedPlanesMean (well-formedness),Passed,00:00:00.0718940,128321,3
FiniteDiff.ZeroBackward (correctness),Passed,00:00:00.0718448,175429,3
PlaneRanges.CropPlanesSelects (correctness),Passed,00:00:00.0718344,50390,3
DeconvolveApi.Deconvolve.SetCallbackExtended (well-formedness),Passed,00:00:00.0715152,93953,3
DeconvolveApi.Deconvolve.SetCallbackExtended (correctness),Passed,00:00:00.0713464,129273,3
ExpandShape.Expanded (well-formedness),Passed,00:00:00.0710886,110469,3
ExtractPsf.CheckBoundary (well-formedness),Passed,00:00:00.0709686,30722,3
DeconvolvePriv.DeconvolvePrivate.SetPsf (correctness),Passed,00:00:00.0709076,83149,3
DeconvolvePriv.DeconvolvePrivate._ctor (well-formedness),Passed,00:00:00.0703525,71224,3
SliceSpec.TwoParts (correctness),Passed,00:00:00.0703358,149853,3
Noise.InnerBar (correctness),Passed,00:00:00.0699419,81037,3
DeconvolvePriv.DeconvolvePrivate.SetMaxIterations (well-formedness),Passed,00:00:00.0698784,33693,3
NdArray.RavelWithin (correctness),Passed,00:00:00.0693915,155850,3
DeconvolveApi.Deconvolve.DisableRegularization (correctness),Passed,00:00:00.0690504,99092,3
Images.Image.ProdImage (correctness),Passed,00:00:00.0688430,92786,3
ExpandShape.ExpandToShape (correctness),Passed,00:00:00.0687979,159390,3
DeconvolveApi.Deconvolve.ClearMaxIterations (correctness),Passed,00:00:00.0684800,110271,3
ReadXml.ExpandLow (correctness),Passed,00:00:00.0681830,56925,3
DeconvolveApi.Deconvolve.ClearFftwHandlers (well-formedness),Passed,00:00:00.0676988,95039,3
Noise.WideNoiseSucceeds (well-formedness),Passed,00:00:00.0675729,114261,3
Images.RealRowsFrame (correctness),Passed,00:00:00.0673094,289655,3
DeconvolveApi.SampleUnitFree (well-formedness),Passed,00:00:00.0672479,13467,3
ExtractPsf.SumAtMostCount (well-formedness),Passed,00:00:00.0668151,59318,3
DeconvolveApi.Deconvolve.ClearCallback (correctness),Passed,00:00:00.0667466,105876,3
DeconvolveApi.Deconvolve.ClearFftwHandlers (correctness),Passed,00:00:00.0661282,109830,3
FileNames.ProperNamePlaneNegative (correctness),Passed,00:00:00.0661140,164801,3
DeconvolveApi.Deconvolve.SetPsf (correctness),Passed,00:00:00.0657667,79034,3
SliceSpec.SliceSpecAxes (correctness),Passed,00:00:00.0657594,157866,3
PsfOtf.InterpolatedPlacement (well-formedness),Passed,00:00:00.0656053,81863,3
DeconvolvePriv.Fits (well-formedness),Passed,00:00:00.0654762,28690,3
DeconvolvePriv.Start (well-formedness),Passed,00:00:00.0653013,83808,3
PlaneRanges.PlaneIdsIgnoreUpperLimit (correctness),Passed,00:00:00.0651744,85669,3
ReadXml.BlockMean (well-formedness),Passed,00:00:00.0649831,106597,3
DeconvolvePriv.DeclineIsStrict (correctness),Passed,00:00:00.0647792,29283,3
ExtractPsf.Lowered (well-formedness),Passed,00:00:00.0645006,72572,3
Images.Image.ProdImage (well-formedness),Passed,00:00:00.0641620,84613,3
PsfOtf.FillLine (well-formedness),Passed,00:00:00.0640634,102435,3
ExtractPsf.FailureSticks (correctness),Passed,00:00:00.0637017,104352,3
FileNames.StackNameSpelling (correctness),Passed,00:00:00.0634993,328952,3
Noise.EstimateGainOther (correctness),Passed,00:00:00.0633756,128757,3
BeadPsf.GetLargestBBox (correctness),Passed,00:00:00.0632595,65302,3
ExtractPsf.BackgroundIterations (well-formedness),Passed,00:00:00.0631535,76883,3
ReadXml.TallyFailsIff (well-formedness),Passed,00:00:00.0623581,81756,3
ReadXml.AddRowSamples (well-formedness),Passed,00:00:00.0623511,103855,3
ExtractPsf.CountIsAccepted (well-formedness),Passed,00:00:00.0620957,53554,3
PyStr.Split (well-formedness),Passed,00:00:00.0618196,172189,3
PyStr.ParseUnsignedDigits (well-formedness),Passed,00:00:00.0615709,30284,3
SliceSpec.EmptySpecKeepsAll (correctness),Passed,00:00:00.0613694,123416,3
Images.StatsStep (correctness),Passed,00:00:00.0612104,97682,3
ExtractPsf.FieldOf (well-formedness),Passed,00:00:00.0610996,51703,3
FileNames.ProperNamePlaneIsZFill (correctness),Passed,00:00:00.0609369,111784,3
ReadXml.BlockWithin (well-formedness),Passed,00:00:00.0609125,80520,3
ReadXml.MaximumCentering (well-formedness),Passed,00:00:00.0603990,97881,3
FiniteDiff.BackwardIsShiftedForward (well-formedness),Passed,00:00:00.0603718,37456,3
ReadXml.BlurSteps (well-formedness),Passed,00:00:00.0602894,46559,3
ReadXml.ExpandedWindow (well-formedness),Passed,00:00:00.0601655,131079,3
Noise.InnerBar (well-formedness),Passed,00:00:00.0601240,54171,3
FileNames.LastFieldAfter (correctness),Passed,00:00:00.0599383,128089,3
SliceSpec.TooManyFields (well-formedness),Passed,00:00:00.0596712,88601,3
DeconvolveApi.Deconvolve.SetSnr (correctness),Passed,00:00:00.0595904,106699,3
ReadXml.PsfShapeCovers (correctness),Passed,00:00:00.0592831,59346,3
BeadPsf.CropPsf (well-formedness),Passed,00:00:00.0592598,83927,3
DeconvolveApi.Deconvolve.SetFftwHandlers (correctness),Passed,00:00:00.0589598,113812,3
PyStr.FirstFieldSplit (correctness),Passed,00:00:00.0587581,123903,3
DeconvolvePriv.VoxelwiseIsCombined (correctness),Passed,00:00:00.0587482,63137,3
PyStr.ParseIntDigits (correctness),Passed,00:00:00.0586162,130250,3
SliceSpec.ParseParts (well-formedness),Passed,00:00:00.0585326,140414,3
DeconvolvePriv.DeconvolvePrivate.ClearFftwHandlers (well-formedness),Passed,00:00:00.0582672,86427,3
ExtractPsf.ClearDiscarded (correctness),Passed,00:00:00.0578872,77428,3
DeconvolveApi.ApiUnitsAgree (well-formedness),Passed,00:00:00.0578520,81548,3
DeconvolveApi.Deconvolve.SetSnr (well-formedness),Passed,00:00:00.0577807,73684,3
Images.Image.AppendRow (correctness),Passed,00:00:00.0577771,122127,3
BeadPsf.KeptCropsStep (well-formedness),Passed,00:00:00.0575460,89693,3
BeadPsf.IsFilterResult (well-formedness),Passed,00:00:00.0573609,55200,3
PsfOtf.NormaliseInPlace (correctness),Passed,00:00:00.0569967,74396,3
PsfOtf.Psf.Valid (well-formedness),Passed,00:00:00.0569504,46877,3
Images.Image.InvDivideImage (well-formedness),Passed,00:00:00.0567455,84613,3
DeconvolveApi.Deconvolve.SetMaxIterations (correctness),Passed,00:00:00.0563159,106792,3
ExtractPsf.BackgroundBounded (well-formedness),Passed,00:00:00.0560755,82400,3
Images.SetGetRoundTrip (correctness),Passed,00:00:00.0558122,74841,3
Noise.ShareWhole (correctness),Passed,00:00:00.0555983,7471,3
DeconvolveApi.SameSamples (well-formedness),Passed,00:00:00.0553917,64946,3
Noise.PhotonCount (correctness),Passed,00:00:00.0549851,75257,3
FiniteDiff.ZeroBackward (well-formedness),Passed,00:00:00.0549549,119415,3
PsfOtf.SingleSampleAxisVanishes (well-formedness),Passed,00:00:00.0547977,80928,3
DeconvolveApi.Deconvolve.SetPsf (well-formedness),Passed,00:00:00.0545419,70266,3
Noise.HistPrefix (well-formedness),Passed,00:00:00.0542551,62866,3
FileNames.SortByTime (well-formedness),Passed,00:00:00.0540369,94192,3
ExtractPsf.CountIsAccepted (correctness),Passed,00:00:00.0538520,88228,3
DeconvolvePriv.LeastSquaresLambda (well-formedness),Passed,00:00:00.0538296,87269,3
DeconvolveApi.Deconvolve.SetMaxIterations (well-formedness),Passed,00:00:00.0536048,73783,3
ExtractPsf.TallyOfNext (correctness),Passed,00:00:00.0535243,63239,3
FftwSettings.ImageSettings.ForwardPlan (correctness),Passed,00:00:00.0530850,51153,3
ExtractPsf.Rescaled (well-formedness),Passed,00:00:00.0530046,96194,3
Noise.Hist (well-formedness),Passed,00:00:00.0528616,113207,3
DeconvolveApi.Deconvolve._ctor (correctness),Passed,00:00:00.0528262,107843,3
PlaneRanges.CreatePlanesTiff (correctness),Passed,00:00:00.0526582,80524,3
SliceSpec.SliceSpecOf (well-formedness),Passed,00:00:00.0524976,94420,3
DeconvolveApi.Deconvolve.SetFftwHandlers (well-formedness),Passed,00:00:00.0523759,100207,3
ExpandShape.Voxel (well-formedness),Passed,00:00:00.0523238,84410,3
DeconvolvePriv.DeconvolvePrivate.ClearSnr (correctness),Passed,00:00:00.0522869,44762,3
BeadPsf.AllInteriorKept (well-formedness),Passed,00:00:00.0522189,86775,3
BeadPsf.CropPsfs (well-formedness),Passed,00:00:00.0522130,90954,3
DeconvolveApi.Deconvolve.SetCallback (correctness),Passed,00:00:00.0516268,107097,3
PsfOtf.PartialEnds (correctness),Passed,00:00:00.0514438,47871,3
FiniteDiff.Normaliser (well-formedness),Passed,00:00:00.0512550,113952,3
Images.Image.Set (well-formedness),Passed,00:00:00.0510292,67465,3
ExtractPsf.UniformStackFails (well-formedness),Passed,00:00:00.0508316,76237,3
DeconvolveApi.ApiUnitsAgree (correctness),Passed,00:00:00.0505796,81925,3
FileNames.OrderedEntriesPermute (well-formedness),Passed,00:00:00.0503800,99962,3
DeconvolveApi.Deconvolve.ClearSnr (well-formedness),Passed,00:00:00.0499717,73939,3
PsfOtf.Coords (well-formedness),Passed,00:00:00.0497615,207193,3
ReadXml.ExpandedFitsShape (correctness),Passed,00:00:00.0494986,59058,3
PsfOtf.NewPsf (correctness),Passed,00:00:00.0493234,70655,3
ExtractPsf.UniformMoments (correctness),Passed,00:00:00.0493036,70192,3
SliceSpec.Apply (well-formedness),Passed,00:00:00.0489985,93855,3
SliceSpec.SliceSpecAxes (well-formedness),Passed,00:00:00.0488382,103162,3
PlaneRanges.PyRange (well-formedness),Passed,00:00:00.0484077,141484,3
BeadPsf.LargestExtentIsMax (correctness),Passed,00:00:00.0483371,78424,3
PsfOtf.StoreVoxel (well-formedness),Passed,00:00:00.0482191,60977,3
ReadXml.Windows (well-formedness),Passed,00:00:00.0479703,75864,3
FiniteDiff.ForwardRawTelescopes (correctness),Passed,00:00:00.0479671,102169,3
ReadXml.ExpandedFitsShape (well-formedness),Passed,00:00:00.0479492,50746,3
DeconvolveApi.Deconvolve.EnableRegularization (correctness),Passed,00:00:00.0478763,99154,3
FileNames.Entries (well-formedness),Passed,00:00:00.0474942,111397,3
FileNames.TimeFolderParses (correctness),Passed,00:00:00.0473015,84250,3
FiniteDiff.Line (well-formedness),Passed,00:00:00.0472978,85881,3
BeadPsf.CalcAvBBoxSize (well-formedness),Passed,00:00:00.0472970,47977,3
ReadXml.FittingPrefix (well-formedness),Passed,00:00:00.0472886,27127,3
DeconvolveApi.Deconvolve.ClearMaxIterations (well-formedness),Passed,00:00:00.0471936,73985,3
SliceSpec.TooManyFields (correctness),Passed,00:00:00.0465446,98825,3
PsfOtf.InterpAt (well-formedness),Passed,00:00:00.0456981,96969,3
DeconvolvePriv.DeconvolvePrivate.SetCallback (well-formedness),Passed,00:00:00.0455352,37023,3
FftwSettings.ImageSettings.InversePlan (well-formedness),Passed,00:00:00.0455243,46804,3
BeadPsf.LargestFootprint (well-formedness),Passed,00:00:00.0455052,31757,3
ReadXml.SameVolume (correctness),Passed,00:00:00.0454556,48283,3
ExpandShape.GrowingAxisCopiesAll (correctness),Passed,00:00:00.0454482,83728,3
Images.IsReal (well-formedness),Passed,00:00:00.0450052,9624,3
BeadPsf.ExtentsPrefix (correctness),Passed,00:00:00.0447917,43846,3
PsfOtf.Psf._ctor (well-formedness),Passed,00:00:00.0447498,41405,3
BeadPsf.MeanVolumeBetween (well-formedness),Passed,00:00:00.0446799,83186,3
SliceSpec.DataSourceChecks (correctness),Passed,00:00:00.0446252,90622,3
Images.Image.CopyData (correctness),Passed,00:00:00.0445309,71901,3
PsfOtf.Psf.Set (correctness),Passed,00:00:00.0444996,84402,3
SliceSpec.EmptyField (correctness),Passed,00:00:00.0443380,105337,3
PsfOtf.MulNonNegative (correctness),Passed,00:00:00.0441942,3738,3
FiniteDiff.ZeroQuotient (correctness),Passed,00:00:00.0441864,94069,3
Images.NewImage (correctness),Passed,00:00:00.0434976,94029,3
DeconvolveApi.Deconvolve._ctor (well-formedness),Passed,00:00:00.0434474,72061,3
ReadXml.ExpandIndices (correctness),Passed,00:00:00.0431431,68593,3
Images.Image.Valid (well-formedness),Passed,00:00:00.0430559,36402,3
DeconvolveApi.ResamplingUnitFree (well-formedness),Passed,00:00:00.0429441,78352,3
PlaneRanges.StackSumAppend (well-formedness),Passed,00:00:00.0428613,34093,3
PyStr.RemoveUnderscores (well-formedness),Passed,00:00:00.0428321,88114,3
ExtractPsf.DiscardedExactly (well-formedness),Passed,00:00:00.0426492,67308,3
ExtractPsf.EmptyCountFails (well-formedness),Passed,00:00:00.0424365,75015,3
ExtractPsf.TallyOfNext (well-formedness),Passed,00:00:00.0422941,60805,3
Images.RealPartIgnoresPadding (correctness),Passed,00:00:00.0419376,68993,3
Images.Image.GetStats (well-formedness),Passed,00:00:00.0415021,71237,3
DeconvolvePriv.DeconvolvePrivate.Valid (well-formedness),Passed,00:00:00.0412479,61514,3
PsfOtf.StoreAtSource (correctness),Passed,00:00:00.0411862,58394,3
PySlice.Slice (well-formedness),Passed,00:00:00.0410817,54049,3
DeconvolvePriv.DeconvolvePrivate.SetPsf (well-formedness),Passed,00:00:00.0410278,60890,3
DeconvolvePriv.DeconvolvePrivate.SetMaxIterations (correctness),Passed,00:00:00.0408061,46937,3
PsfOtf.OwnGridCopies (well-formedness),Passed,00:00:00.0407590,56827,3
ExtractPsf.UniformStackFails (correctness),Passed,00:00:00.0407118,86432,3
Images.CombinedVoxelwise (correctness),Passed,00:00:00.0406366,69461,3
PyStr.SplitExtRoot (well-formedness),Passed,00:00:00.0405788,72498,3
ExtractPsf.Visit (well-formedness),Passed,00:00:00.0404975,56102,3
Noise.HistLastBar (well-formedness),Passed,00:00:00.0402892,55209,3
ExtractPsf.FailureSticks (well-formedness),Passed,00:00:00.0402230,56192,3
PsfOtf.VoxelValue (well-formedness),Passed,00:00:00.0401866,56378,3
ExtractPsf.EmptyCountFails (correctness),Passed,00:00:00.0400370,76417,3
Images.SqDistToZeroIff (correctness),Passed,00:00:00.0399070,63470,3
Images.NewImage (well-formedness),Passed,00:00:00.0398420,67355,3
Images.Image.Nrm2 (well-formedness),Passed,00:00:00.0395771,73510,3
PsfOtf.ShiftBijection (correctness),Passed,00:00:00.0394909,299640,3
ExpandShape.AxisSource (well-formedness),Passed,00:00:00.0394117,55406,3
Images.Image.Combine (well-formedness),Passed,00:00:00.0393819,72744,3
PsfOtf.PartialStep (well-formedness),Passed,00:00:00.0393498,51262,3
DeconvolveApi.InterpAtUnitFree (well-formedness),Passed,00:00:00.0392576,55753,3
DeconvolvePriv.VoxelwiseIsCombined (well-formedness),Passed,00:00:00.0390031,58727,3
Images.RealPartIgnoresPadding (well-formedness),Passed,00:00:00.0389201,35280,3
FiniteDiff.DiffAt (correctness),Passed,00:00:00.0388847,48647,3
DeconvolveApi.Deconvolve.ClearCallback (well-formedness),Passed,00:00:00.0388627,74039,3
FiniteDiff.BufferHoldsDiffs (correctness),Passed,00:00:00.0388368,93233,3
ExtractPsf.VisitLabel (correctness),Passed,00:00:00.0387634,55171,3
DeconvolvePriv.DeconvolvePrivate.SetSnr (correctness),Passed,00:00:00.0385646,46890,3
Images.Image.GetImage (well-formedness),Passed,00:00:00.0382190,58021,3
FftwSettings.MakePlan (correctness),Passed,00:00:00.0380987,59391,3
Images.CombinedVoxelwise (well-formedness),Passed,00:00:00.0380698,65723,3
FiniteDiff.DiffLine (well-formedness),Passed,00:00:00.0380308,37661,3
PlaneRanges.CreatePlanesTiff (well-formedness),Passed,00:00:00.0379431,74254,3
PlaneRanges.NoPlanesIff (well-formedness),Passed,00:00:00.0377434,27418,3
Images.Image._ctor (correctness),Passed,00:00:00.0376248,50215,3
ExtractPsf.TallyOf (well-formedness),Passed,00:00:00.0375415,63240,3
PyStr.DigitsValueLeadingZeros (correctness),Passed,00:00:00.0375203,59675,3
DeconvolveApi.Deconvolve.SetCallback (well-formedness),Passed,00:00:00.0374953,77096,3
Images.Image.CopyData (well-formedness),Passed,00:00:00.0373923,57621,3
PsfOtf.Normalised (well-formedness),Passed,00:00:00.0372988,25660,3
PyStr.ZFillParse (correctness),Passed,00:00:00.0372913,92645,3
FiniteDiff.NormalisedComponentBounded (correctness),Passed,00:00:00.0372768,30796,3
ExtractPsf.VisitLabel (well-formedness),Passed,00:00:00.0367128,48151,3
Noise.UnitCounts (well-formedness),Passed,00:00:00.0367081,50460,3
PlaneRanges.SelectFrames (well-formedness),Passed,00:00:00.0364984,53695,3
Images.FirstVoxel (correctness),Passed,00:00:00.0364704,81428,3
PlaneRanges.PlaneIdsIgnoreUpperLimit (well-formedness),Passed,00:00:00.0363879,54169,3
Noise.MinCountNonNegative (well-formedness),Passed,00:00:00.0361402,29093,3
PsfOtf.NormalisedSumsToOne (correctness),Passed,00:00:00.0361328,53887,3
ExtractPsf.RollRotates (correctness),Passed,00:00:00.0359416,101445,3
Noise.HistInnerBars (well-formedness),Passed,00:00:00.0359057,55936,3
ExtractPsf.Foreground (well-formedness),Passed,00:00:00.0358859,50590,3
ExtractPsf.BackgroundIterations (correctness),Passed,00:00:00.0357844,86871,3
BeadPsf.KeptBoxesFitFootprint (well-formedness),Passed,00:00:00.0357409,58453,3
PsfOtf.Psf._ctor (correctness),Passed,00:00:00.0357029,49522,3
ReadXml.MeanWithin (correctness),Passed,00:00:00.0356425,143381,3
ExpandShape.AxisWindow (correctness),Passed,00:00:00.0354764,38171,3
Images.PadCovers (correctness),Passed,00:00:00.0353704,28589,3
FftwSettings.MakePlan (well-formedness),Passed,00:00:00.0352782,44163,3
PyStr.NatStr (well-formedness),Passed,00:00:00.0351899,85821,3
DeconvolvePriv.Voxelwise (well-formedness),Passed,00:00:00.0351585,36996,3
DeconvolveApi.Deconvolve.DisableRegularization (well-formedness),Passed,00:00:00.0350943,73684,3
Noise.ClampNegatives (correctness),Passed,00:00:00.0350229,72820,3
SliceSpec.SplitThree (correctness),Passed,00:00:00.0348498,117156,3
ReadXml.ExpandHigh (correctness),Passed,00:00:00.0346853,41665,3
PlaneRanges.LastNonZero (well-formedness),Passed,00:00:00.0346245,62312,3
DeconvolvePriv.DeconvolvePrivate.CallbackDefault (well-formedness),Passed,00:00:00.0344740,46767,3
ExtractPsf.Rolled (well-formedness),Passed,00:00:00.0343553,64187,3
PlaneRanges.CalcStacksAverage (well-formedness),Passed,00:00:00.0343415,55505,3
PyStr.RStrip (well-formedness),Passed,00:00:00.0343342,48825,3
DeconvolveApi.SampleUnitFree (correctness),Passed,00:00:00.0342819,89028,3
Images.SqDistConcat (correctness),Passed,00:00:00.0342410,72830,3
PyStr.ParseInt (well-formedness),Passed,00:00:00.0340826,53248,3
Images.Unpad (well-formedness),Passed,00:00:00.0340592,124890,3
Images.Image.ReleaseData (correctness),Passed,00:00:00.0336961,62520,3
Images.Image.CopyRow (well-formedness),Passed,00:00:00.0336057,81069,3
FiniteDiff.MinModAgrees (correctness),Passed,00:00:00.0335953,79275,3
PsfOtf.Partial (well-formedness),Passed,00:00:00.0332492,51799,3
BeadPsf.FilterSize (well-formedness),Passed,00:00:00.0332256,68057,3
DeconvolvePriv.DeconvolvePrivate.SetRegularization (correctness),Passed,00:00:00.0331512,47030,3
SliceSpec.TwoParts (well-formedness),Passed,00:00:00.0331479,81422,3
PsfOtf.PartialEnds (well-formedness),Passed,00:00:00.0331476,47260,3
Noise.HistIsDensity (well-formedness),Passed,00:00:00.0329834,59553,3
ExtractPsf.AverageOf (well-formedness),Passed,00:00:00.0329240,51143,3
PlaneRanges.StackSumVoxel (well-formedness),Passed,00:00:00.0328994,39646,3
FiniteDiff.BackwardRaw (well-formedness),Passed,00:00:00.0326914,26891,3
ReadXml.ClusterWindows (well-formedness),Passed,00:00:00.0325521,48032,3
LambdaCallback.LambdaLog.Call (correctness),Passed,00:00:00.0322724,49732,3
BeadPsf.ZeroToleranceRejectsAll (correctness),Passed,00:00:00.0321628,42481,3
Images.Image.AddRowSqDist (well-formedness),Passed,00:00:00.0318133,57896,3
FftwSettings.ImageSettings.InversePlan (correctness),Passed,00:00:00.0317344,51153,3
Images.StatsUnique (correctness),Passed,00:00:00.0316060,109556,3
Images.Image.StatsRow (well-formedness),Passed,00:00:00.0314031,55294,3
Images.Image.Voxels (well-formedness),Passed,00:00:00.0312645,56631,3
Images.Nrm2IsSquared (correctness),Passed,00:00:00.0310473,15862,3
PsfOtf.Accumulate (correctness),Passed,00:00:00.0310064,39713,3
PyStr.LStrip (well-formedness),Passed,00:00:00.0309825,50115,3
PsfOtf.TrilinearConvex (correctness),Passed,00:00:00.0309646,40165,3
PlaneRanges.Average (well-formedness),Passed,00:00:00.0309299,49939,3
Images.RealPart (well-formedness),Passed,00:00:00.0307233,52502,3
ReadXml.FixIndices (correctness),Passed,00:00:00.0304832,31285,3
BeadPsf.CropPsfFits (well-formedness),Passed,00:00:00.0303258,46689,3
Noise.MinCountNonNegative (correctness),Passed,00:00:00.0303185,42449,3
PyStr.LastFieldSplit (well-formedness),Passed,00:00:00.0302442,52998,3
Images.Combined (well-formedness),Passed,00:00:00.0301042,43571,3
PyStr.IsDigitGroup (well-formedness),Passed,00:00:00.0299663,21120,3
Noise.MinMaxAttained (correctness),Passed,00:00:00.0299291,47314,3
BeadPsf.CropAxisFull (correctness),Passed,00:00:00.0298429,122141,3
FftwSettings.ImageSettings.WithHandlers (correctness),Passed,00:00:00.0298335,42833,3
Images.SoFarIsStats (correctness),Passed,00:00:00.0297200,49035,3
PsfOtf.Rank (well-formedness),Passed,00:00:00.0297115,24082,3
FftwSettings.PlanOutcome (well-formedness),Passed,00:00:00.0296822,43965,3
FileNames.SplitExtRootOf (correctness),Passed,00:00:00.0296116,62521,3
PlaneRanges.FirstNonZero (well-formedness),Passed,00:00:00.0295158,73336,3
ReadXml.PsfShapeOfAppend (correctness),Passed,00:00:00.0295039,36255,3
PlaneRanges.CreatePlanesTiffOldNeverWrites (correctness),Passed,00:00:00.0294986,43979,3
ExtractPsf.BelowCut (well-formedness),Passed,00:00:00.0293851,36850,3
ReadXml.FittingPrefix (correctness),Passed,00:00:00.0293169,37247,3
FftwSettings.ImageSettings.Copy (correctness),Passed,00:00:00.0292911,40417,3
DeconvolvePriv.DeconvolvePrivate.ClearMaxIterations (correctness),Passed,00:00:00.0292254,44276,3
DeconvolvePriv.DeconvolvePrivate.ClearCallback (correctness),Passed,00:00:00.0292065,43067,3
FiniteDiff.Forward (well-formedness),Passed,00:00:00.0291781,33847,3
Images.Image.CopyIn (well-formedness),Passed,00:00:00.0291086,59278,3
PsfOtf.Source (well-formedness),Passed,00:00:00.0290876,28913,3
DeconvolveApi.Deconvolve.Valid (well-formedness),Passed,00:00:00.0290062,59853,3
DeconvolvePriv.DeconvolvePrivate.ClearMaxIterations (well-formedness),Passed,00:00:00.0289818,33914,3
Images.Image.Swap (well-formedness),Passed,00:00:00.0289140,38025,3
BeadPsf.Threshold (well-formedness),Passed,00:00:00.0287984,41015,3
NdArray.PlaneWithin (correctness),Passed,00:00:00.0287085,30580,3
PsfOtf.InBoundsIff (correctness),Passed,00:00:00.0286595,23303,3
Images.FirstVoxel (well-formedness),Passed,00:00:00.0285290,35832,3
DeconvolvePriv.Args (well-formedness),Passed,00:00:00.0284493,48521,3
PlaneRanges.NoPlanesIff (correctness),Passed,00:00:00.0282901,36166,3
FftwSettings.ImageSettings._ctor (correctness),Passed,00:00:00.0282657,33104,3
Images.RealRows (well-formedness),Passed,00:00:00.0282571,34734,3
LambdaCallback.NotAboveLastThree (well-formedness),Passed,00:00:00.0282495,10031,3
FileNames.DottedStemSpelling (correctness),Passed,00:00:00.0282223,120085,3
BeadPsf.AvBBoxSizeBetween (well-formedness),Passed,00:00:00.0281135,37442,3
ReadXml.PsfShapeOf (well-formedness),Passed,00:00:00.0280771,33701,3
FileNames.FirstFieldBefore (correctness),Passed,00:00:00.0277999,44002,3
NdArray.Max (well-formedness),Passed,00:00:00.0277199,30571,3
LambdaCallback.LambdaLog.Call (well-formedness),Passed,00:00:00.0276674,22457,3
PsfOtf.NewPsf (well-formedness),Passed,00:00:00.0272492,52538,3
PyStr.FirstField (well-formedness),Passed,00:00:00.0272170,36739,3
ExtractPsf.Stats (well-formedness),Passed,00:00:00.0271765,35511,3
PsfOtf.PsfAt (well-formedness),Passed,00:00:00.0270621,35488,3
ReadXml.SameVolume (well-formedness),Passed,00:00:00.0269367,26592,3
PlaneRanges.CropPlanes (well-formedness),Passed,00:00:00.0269158,51831,3
SliceSpec.DataSourceChecks (well-formedness),Passed,00:00:00.0269036,63360,3
FileNames.LastFieldOrTime (correctness),Passed,00:00:00.0268585,59084,3
FftwSettings.ImageSettings.ForwardPlan (well-formedness),Passed,00:00:00.0268543,46804,3
PsfOtf.NegativeFractionPasses (correctness),Passed,00:00:00.0267944,17248,3
Noise.CountAbove (correctness),Passed,00:00:00.0267786,24247,3
PlaneRanges.EmptyLimitsDiffer (correctness),Passed,00:00:00.0266124,58452,3
DeconvolvePriv.DeconvolvePrivate.SetCallback (correctness),Passed,00:00:00.0265401,44653,3
PlaneRanges.AddStacks (well-formedness),Passed,00:00:00.0265359,32739,3
BeadPsf.OneAbove (correctness),Passed,00:00:00.0265253,43057,3
PlaneRanges.StackSum (well-formedness),Passed,00:00:00.0264126,34433,3
BeadPsf.ExactSizeAccepted (correctness),Passed,00:00:00.0263363,63352,3
PsfOtf.NormaliseInPlace (well-formedness),Passed,00:00:00.0263332,28584,3
DeconvolvePriv.DeconvolvePrivate.ClearSnr (well-formedness),Passed,00:00:00.0263226,34126,3
ExtractPsf.Resize (well-formedness),Passed,00:00:00.0262283,37297,3
FiniteDiff.DifferencesTelescope (correctness),Passed,00:00:00.0262033,55867,3
NdArray.Ravel (well-formedness),Passed,00:00:00.0261293,44666,3
NdArray.SeqMax (well-formedness),Passed,00:00:00.0261189,36306,3
FftwSettings.NullPlanOnlyFromUser (correctness),Passed,00:00:00.0261071,37650,3
BeadPsf.LargestBBoxCovers (correctness),Passed,00:00:00.0260826,65252,3
ExpandShape.EvenShrinkCentreCrops (well-formedness),Passed,00:00:00.0256172,24330,3
Noise.Masses (well-formedness),Passed,00:00:00.0255670,39249,3
Noise.ArgMin (well-formedness),Passed,00:00:00.0255605,65930,3
BeadPsf.OddRoundAboveThreeHalves (correctness),Passed,00:00:00.0254216,121878,3
BeadPsf.Column (well-formedness),Passed,00:00:00.0253475,47368,3
FiniteDiff.BufferHoldsDiffs (well-formedness),Passed,00:00:00.0252918,38357,3
PlaneRanges.WritePlanes (well-formedness),Passed,00:00:00.0251892,47280,3
FileNames.Names (well-formedness),Passed,00:00:00.0250268,36111,3
PyStr.ParseIntDigits (well-formedness),Passed,00:00:00.0249693,44853,3
BeadPsf.Thresholded (well-formedness),Passed,00:00:00.0249177,31040,3
ExtractPsf.CheckAxes (well-formedness),Passed,00:00:00.0249166,35051,3
PlaneRanges.RowSums (well-formedness),Passed,00:00:00.0248877,39346,3
ExpandShape.OddShrinkMismatches (correctness),Passed,00:00:00.0245451,61793,3
PsfOtf.Psf.Set (well-formedness),Passed,00:00:00.0245254,48248,3
ExpandShape.EvenShrinkCentreCrops (correctness),Passed,00:00:00.0245213,74804,3
FileNames.PathJoinBasename (correctness),Passed,00:00:00.0245153,38269,3
FiniteDiff.Backward (well-formedness),Passed,00:00:00.0244882,33861,3
ReadXml.Bits (well-formedness),Passed,00:00:00.0244669,19382,3
PlaneRanges.EmptyLimitsDiffer (well-formedness),Passed,00:00:00.0244121,42430,3
SliceSpec.SplitWithout (correctness),Passed,00:00:00.0243597,47973,3
DeconvolvePriv.DeconvolvePrivate.ClearCallback (well-formedness),Passed,00:00:00.0242421,33948,3
PySlice.Len (well-formedness),Passed,00:00:00.0240954,21441,3
Images.PadRowColumn (well-formedness),Passed,00:00:00.0240928,21889,3
Images.Image.AppendRow (well-formedness),Passed,00:00:00.0240823,48735,3
ExpandShape.SeqMin (well-formedness),Passed,00:00:00.0239711,37322,3
PsfOtf.NegativeFractionPasses (well-formedness),Passed,00:00:00.0239680,15674,3
PyNum.SumScale (well-formedness),Passed,00:00:00.0239464,25948,3
Noise.CountTotal (correctness),Passed,00:00:00.0239424,102262,3
ReadXml.Clamped (well-formedness),Passed,00:00:00.0238371,76121,3
PsfOtf.InBoundsIff (well-formedness),Passed,00:00:00.0238354,14161,3
ExpandShape.GrowingAxisCopiesAll (well-formedness),Passed,00:00:00.0238164,23621,3
FileNames.StrHasNoSeparator (correctness),Passed,00:00:00.0237491,39620,3
ExtractPsf.UniformMoments (well-formedness),Passed,00:00:00.0237155,36936,3
PyStr.ParseUnsignedDigits (correctness),Passed,00:00:00.0235683,43859,3
PsfOtf.NewHandlersForceRecompute (well-formedness),Passed,00:00:00.0235484,27008,3
BeadPsf.Extents (well-formedness),Passed,00:00:00.0235482,41295,3
ExtractPsf.Shifted (well-formedness),Passed,00:00:00.0230837,25188,3
Noise.Count (well-formedness),Passed,00:00:00.0229996,19774,3
ExtractPsf.Zeros (well-formedness),Passed,00:00:00.0229625,31067,3
ExtractPsf.WindowInside (correctness),Passed,00:00:00.0229311,30572,3
LambdaCallback.TieIsTheOnlyDifference (correctness),Passed,00:00:00.0228783,51354,3
BeadPsf.ExactSizeAccepted (well-formedness),Passed,00:00:00.0228314,35469,3
FileNames.LastFieldWhole (correctness),Passed,00:00:00.0227721,25488,3
DeconvolveApi.Bind (well-formedness),Passed,00:00:00.0222520,38747,3
NdArray.RavelWithin (well-formedness),Passed,00:00:00.0222336,32501,3
ExtractPsf.Selected (well-formedness),Passed,00:00:00.0222038,24930,3
FftwSettings.ImageSettings.ClearPlan (correctness),Passed,00:00:00.0221286,43550,3
ExtractPsf.Normalised (well-formedness),Passed,00:00:00.0220738,25731,3
PsfOtf.TruncInBounds (correctness),Passed,00:00:00.0219562,13024,3
PsfOtf.Psf.CacheHit (well-formedness),Passed,00:00:00.0219421,35904,3
ExtractPsf.NormalisedPeak (well-formedness),Passed,00:00:00.0218650,32499,3
PsfOtf.NewHandlersForceRecompute (correctness),Passed,00:00:00.0217361,27200,3
PyNum.SumAppend (correctness),Passed,00:00:00.0216952,21167,3
PlaneRanges.PlaneIds (well-formedness),Passed,00:00:00.0215491,26710,3
ExtractPsf.Roll (well-formedness),Passed,00:00:00.0214533,28343,3
PlaneRanges.ZeroStack (well-formedness),Passed,00:00:00.0214071,30222,3
ReadXml.Recentred (well-formedness),Passed,00:00:00.0213351,28920,3
PyStr.StripNothing (correctness),Passed,00:00:00.0212423,25978,3
FiniteDiff.BackwardRawTelescopes (correctness),Passed,00:00:00.0212055,41869,3
DeconvolvePriv.DeconvolvePrivate.SetRegularization (well-formedness),Passed,00:00:00.0211896,33592,3
Noise.Candidates (well-formedness),Passed,00:00:00.0211587,34771,3
FftwSettings.ImageSettings.ClearPlan (well-formedness),Passed,00:00:00.0211401,34503,3
BeadPsf.ExtentsPrefix (well-formedness),Passed,00:00:00.0210867,32368,3
PyStr.Basename (well-formedness),Passed,00:00:00.0209497,28211,3
PyStr.DigitsValueLeadingZeros (well-formedness),Passed,00:00:00.0209065,18385,3
PyStr.Str (well-formedness),Passed,00:00:00.0209017,33891,3
FftwSettings.ImageSettings.Copy (well-formedness),Passed,00:00:00.0208462,12609,3
Noise.PhotonValue (well-formedness),Passed,00:00:00.0208133,13095,3
FiniteDiff.DifferencesTelescope (well-formedness),Passed,00:00:00.0208079,30410,3
Images.RealRowsAt (well-formedness),Passed,00:00:00.0206617,33012,3
ExtractPsf.AddVec (well-formedness),Passed,00:00:00.0206612,32754,3
ExtractPsf.Cleared (well-formedness),Passed,00:00:00.0206443,39507,3
PyStr.ParseUnsigned (well-formedness),Passed,00:00:00.0206393,37366,3
PySlice.Hi (well-formedness),Passed,00:00:00.0205910,15048,3
PyStr.ZFill (well-formedness),Passed,00:00:00.0205897,37982,3
FftwSettings.FftwState.Init (correctness),Passed,00:00:00.0205240,20832,3
SliceSpec.SliceOf (well-formedness),Passed,00:00:00.0204918,31519,3
ReadXml.AxisWindow (well-formedness),Passed,00:00:00.0203924,25112,3
PySlice.SliceInRange (correctness),Passed,00:00:00.0203778,34904,3
FileNames.FolderSpelling (correctness),Passed,00:00:00.0203700,43786,3
BeadPsf.LargestExtentStep (correctness),Passed,00:00:00.0203126,24492,3
PlaneRanges.PyRangeUnitStep (correctness),Passed,00:00:00.0203092,37480,3
FileNames.ZFillDigits (correctness),Passed,00:00:00.0201934,37184,3
DeconvolvePriv.DeconvolvePrivate.SetSnr (well-formedness),Passed,00:00:00.0200851,33592,3
ExpandShape.BroadcastFits (correctness),Passed,00:00:00.0200138,42041,3
NdArray.RavelRows (well-formedness),Passed,00:00:00.0199799,36572,3
ReadXml.MeanWithin (well-formedness),Passed,00:00:00.0199529,11697,3
SliceSpec.ThreeFields (correctness),Passed,00:00:00.0199246,41065,3
Images.StatsOf (well-formedness),Passed,00:00:00.0198988,30983,3
ExtractPsf.AcceptedLabels (well-formedness),Passed,00:00:00.0197260,23993,3
ExtractPsf.RollPermutes (well-formedness),Passed,00:00:00.0196577,24004,3
Images.Image.Compatible (well-formedness),Passed,00:00:00.0196515,25415,3
PyStr.StripNothing (well-formedness),Passed,00:00:00.0194370,17603,3
PsfOtf.CoordsOfFlat (correctness),Passed,00:00:00.0194210,27217,3
BeadPsf.LargestBBoxCovers (well-formedness),Passed,00:00:00.0193773,29808,3
ReadXml.FixIndicesCanCross (correctness),Passed,00:00:00.0190187,14145,3
BeadPsf.MeanExtent (well-formedness),Passed,00:00:00.0190082,32338,3
PlaneRanges.ZeroMean (well-formedness),Passed,00:00:00.0189229,29553,3
PyStr.Strip (well-formedness),Passed,00:00:00.0187827,25509,3
FftwSettings.ImageSettings.WithHandlers (well-formedness),Passed,00:00:00.0187686,29042,3
PySlice.Index (well-formedness),Passed,00:00:00.0186557,15963,3
SliceSpec.DataSource (well-formedness),Passed,00:00:00.0186329,42324,3
Noise.CountSplit (correctness),Passed,00:00:00.0184953,35506,3
Noise.Max (well-formedness),Passed,00:00:00.0184549,23778,3
Images.RealRowsFrame (well-formedness),Passed,00:00:00.0183858,30991,3
ReadXml.BlockEnd (correctness),Passed,00:00:00.0183252,23937,3
SliceSpec.NoBrackets (correctness),Passed,00:00:00.0183059,43444,3
PsfOtf.Psf.IsSet (well-formedness),Passed,00:00:00.0182895,9656,3
FiniteDiff.BackwardRawTelescopes (well-formedness),Passed,00:00:00.0182819,21559,3
ReadXml.PrefixSumStep (well-formedness),Passed,00:00:00.0182202,9321,3
PsfOtf.StoreAt (well-formedness),Passed,00:00:00.0181905,20940,3
PyNum.SumNonNegative (correctness),Passed,00:00:00.0181748,14028,3
FftwSettings.FftwState.Init (well-formedness),Passed,00:00:00.0181219,16475,3
Images.PadCovers (well-formedness),Passed,00:00:00.0180588,24787,3
PyNum.SumZeroAllZero (correctness),Passed,00:00:00.0180121,22213,3
PlaneRanges.CreatePlanesTiffOldNeverWrites (well-formedness),Passed,00:00:00.0178332,28962,3
NdArray.PlaneWithin (well-formedness),Passed,00:00:00.0178209,24167,3
DeconvolvePriv.PushedKeepsNewest (well-formedness),Passed,00:00:00.0177083,16634,3
FiniteDiff.ForwardRawTelescopes (well-formedness),Passed,00:00:00.0177001,21541,3
ReadXml.CentreDistSq (well-formedness),Passed,00:00:00.0175828,18160,3
FftwSettings.InitOutcome (well-formedness),Passed,00:00:00.0175623,15045,3
PyNum.Sum (well-formedness),Passed,00:00:00.0174279,9664,3
PlaneRanges.PlaneIdsOld (well-formedness),Passed,00:00:00.0173914,26268,3
BeadPsf.DivBetween (well-formedness),Passed,00:00:00.0173648,4021,3
Images.PadRowColumn (correctness),Passed,00:00:00.0173480,56383,3
PsfOtf.LineBaseNext (well-formedness),Passed,00:00:00.0172665,12366,3
Images.SqDistAppend (correctness),Passed,00:00:00.0172534,43725,3
ExtractPsf.RollRotates (well-formedness),Passed,00:00:00.0171975,24083,3
NdArray.HasShape (well-formedness),Passed,00:00:00.0171135,18418,3
BeadPsf.ZeroBelow (well-formedness),Passed,00:00:00.0171060,29637,3
Noise.CollapsedReBins (correctness),Passed,00:00:00.0170337,24214,3
LambdaCallback.LambdaLog._ctor (correctness),Passed,00:00:00.0170298,11916,3
BeadPsf.ThresholdBinaryIndicator (correctness),Passed,00:00:00.0170224,26934,3
PsfOtf.NormalisedSumsToOne (well-formedness),Passed,00:00:00.0169634,20730,3
ReadXml.Fitting (well-formedness),Passed,00:00:00.0168618,28209,3
ExtractPsf.NothingSelected (correctness),Passed,00:00:00.0168597,25562,3
NdArray.VoxelsWithin (well-formedness),Passed,00:00:00.0168358,25026,3
PyStr.DigitsValue (well-formedness),Passed,00:00:00.0166822,19248,3
LambdaCallback.TieIsTheOnlyDifference (well-formedness),Passed,00:00:00.0166455,21204,3
FileNames.ProperNamePlane (well-formedness),Passed,00:00:00.0166391,37342,3
Images.SqDistZeroIff (correctness),Passed,00:00:00.0166016,21660,3
Noise.Bar (well-formedness),Passed,00:00:00.0165263,16867,3
PsfOtf.FlatIndexInLine (well-formedness),Passed,00:00:00.0164861,13759,3
DeconvolvePriv.DeclineIsStrict (well-formedness),Passed,00:00:00.0164279,13741,3
PlaneRanges.PlaneNamesDiffer (correctness),Passed,00:00:00.0164171,37145,3
PyStr.ZerosValue (correctness),Passed,00:00:00.0163913,22315,3
DeconvolvePriv.Outcome (well-formedness),Passed,00:00:00.0163532,20589,3
FiniteDiff.Subtracted (well-formedness),Passed,00:00:00.0162481,12269,3
PySlice.SliceInRange (well-formedness),Passed,00:00:00.0162311,23489,3
ExpandShape.WindowOf (well-formedness),Passed,00:00:00.0161938,7063,3
PsfOtf.StoreAtSource (well-formedness),Passed,00:00:00.0161527,26056,3
Images.DataSize (well-formedness),Passed,00:00:00.0161373,13943,3
Noise.PhotonCount (well-formedness),Passed,00:00:00.0161364,20022,3
LambdaCallback.TiesStopOnlyHere (correctness),Passed,00:00:00.0160937,24280,3
FiniteDiff.DiffAt (well-formedness),Passed,00:00:00.0159667,31809,3
Images.SqDist (well-formedness),Passed,00:00:00.0159330,10466,3
PsfOtf.FractionInUnit (correctness),Passed,00:00:00.0159149,13255,3
PsfOtf.CoordsOfFlat (well-formedness),Passed,00:00:00.0158798,18520,3
ReadXml.PsfShapeCovers (well-formedness),Passed,00:00:00.0157627,22134,3
Images.MinMod (well-formedness),Passed,00:00:00.0156475,18377,3
FileNames.FolderSpelling (well-formedness),Passed,00:00:00.0155460,21530,3
PyStr.Zeros (well-formedness),Passed,00:00:00.0154385,31062,3
Images.Image.ReleaseData (well-formedness),Passed,00:00:00.0153577,30309,3
ExtractPsf.DistSq (well-formedness),Passed,00:00:00.0153447,16533,3
ExtractPsf.Deviations (well-formedness),Passed,00:00:00.0152224,30838,3
FileNames.ZFillDigits (well-formedness),Passed,00:00:00.0151651,28859,3
NdArray.RavelPlane (well-formedness),Passed,00:00:00.0150520,21471,3
ExtractPsf.SupersampledVolume (well-formedness),Passed,00:00:00.0150503,22156,3
PlaneRanges.PyRangeUnitStep (well-formedness),Passed,00:00:00.0150447,15677,3
PyNum.RoundHalfEvenUnique (correctness),Passed,00:00:00.0149681,23616,3
BeadPsf.ThresholdKeepsOrZeroes (correctness),Passed,00:00:00.0149577,28029,3
FftwSettings.ClearOutcome (well-formedness),Passed,00:00:00.0148537,20602,3
ReadXml.PrefixSumStep (correctness),Passed,00:00:00.0148383,13240,3
PyStr.DigitsNotWhitespace (correctness),Passed,00:00:00.0147390,23885,3
Images.Image.SameSettings (well-formedness),Passed,00:00:00.0147384,17557,3
Images.SameVoxelNotTransitive (correctness),Passed,00:00:00.0146338,15222,3
FiniteDiff.PrevAt (well-formedness),Passed,00:00:00.0146110,29629,3
LambdaCallback.DefaultDeclineStopsTest (well-formedness),Passed,00:00:00.0144516,14070,3
BeadPsf.ThresholdKeepsOrZeroes (well-formedness),Passed,00:00:00.0144473,21925,3
Images.Nrm2IsSquared (well-formedness),Passed,00:00:00.0142766,9618,3
ExtractPsf.SupersampledExtent (correctness),Passed,00:00:00.0141634,14469,3
Noise.CountAll (correctness),Passed,00:00:00.0141388,20184,3
Noise.TwoReBins (well-formedness),Passed,00:00:00.0140608,14612,3
LambdaCallback.FourthValueNeeded (correctness),Passed,00:00:00.0140426,19492,3
ExtractPsf.CountTrue (well-formedness),Passed,00:00:00.0140192,17393,3
ExtractPsf.DropAll (correctness),Passed,00:00:00.0139869,7720,3
FiniteDiff.NextAt (well-formedness),Passed,00:00:00.0138926,28265,3
BeadPsf.ThresholdBinaryIndicator (well-formedness),Passed,00:00:00.0138686,27251,3
Images.SqDistToPrefix (correctness),Passed,00:00:00.0138210,41357,3
Noise.LastBinCounts (correctness),Passed,00:00:00.0138180,19007,3
ReadXml.FieldHalf (well-formedness),Passed,00:00:00.0138172,4542,3
ExtractPsf.DualParabolaMirror (correctness),Passed,00:00:00.0137958,6445,3
PsfOtf.FlatIndex (well-formedness),Passed,00:00:00.0137400,19484,3
ExtractPsf.CountAtLeast (well-formedness),Passed,00:00:00.0136974,17131,3
Noise.PhotonValueMonotone (correctness),Passed,00:00:00.0136336,15667,3
DeconvolvePriv.OnlyCapStopsEarly (correctness),Passed,00:00:00.0136097,9461,3
PyNum.RoundHalfEven (well-formedness),Passed,00:00:00.0136023,21628,3
ReadXml.BinnedShape (well-formedness),Passed,00:00:00.0135875,22236,3
BeadPsf.LargestExtentStep (well-formedness),Passed,00:00:00.0135662,19694,3
BeadPsf.LargestExtent (well-formedness),Passed,00:00:00.0134643,19614,3
PyStr.JoinLastShorter (correctness),Passed,00:00:00.0134251,24252,3
LambdaCallback.FourthValueNeeded (well-formedness),Passed,00:00:00.0134170,19512,3
FileNames.Tail (well-formedness),Passed,00:00:00.0134158,11714,3
BeadPsf.CropAxisFull (well-formedness),Passed,00:00:00.0134018,21332,3
PyStr.FirstFieldSplit (well-formedness),Passed,00:00:00.0133925,21491,3
PsfOtf.FractionInUnit (well-formedness),Passed,00:00:00.0133809,13450,3
DeconvolveApi.CancelFactor (correctness),Passed,00:00:00.0133544,7031,3
PyStr.DigitsNotWhitespace (well-formedness),Passed,00:00:00.0132428,16480,3
PyNum.Trunc (well-formedness),Passed,00:00:00.0131278,9675,3
Images.Row (well-formedness),Passed,00:00:00.0131037,26155,3
Noise.Min (well-formedness),Passed,00:00:00.0130920,23288,3
ReadXml.RoundingDiffers (correctness),Passed,00:00:00.0130423,12837,3
Images.IsStats (well-formedness),Passed,00:00:00.0130404,27860,3
ExtractPsf.FieldPositive (correctness),Passed,00:00:00.0129927,19271,3
FftwSettings.NewHandlersInvalidate (correctness),Passed,00:00:00.0129375,8837,3
Images.Apply (well-formedness),Passed,00:00:00.0129112,12405,3
ReadXml.BlurStep (well-formedness),Passed,00:00:00.0128912,13752,3
PsfOtf.VolumePositive (correctness),Passed,00:00:00.0128599,14447,3
Noise.ShareAdd (well-formedness),Passed,00:00:00.0127215,6424,3
DeconvolvePriv.Distance (well-formedness),Passed,00:00:00.0126784,13945,3
Noise.MinMaxAttained (well-formedness),Passed,00:00:00.0126648,12698,3
LambdaCallback.DefaultDeclineStopsTest (correctness),Passed,00:00:00.0126246,20695,3
BeadPsf.ZeroToleranceRejectsBox (correctness),Passed,00:00:00.0126106,22718,3
BeadPsf.OneAbove (well-formedness),Passed,00:00:00.0126056,12716,3
ReadXml.Clamp (well-formedness),Passed,00:00:00.0125840,11624,3
FileNames.SplitExtRootOf (well-formedness),Passed,00:00:00.0125132,23572,3
PsfOtf.DivBelow (well-formedness),Passed,00:00:00.0124549,4268,3
Noise.Rounded (well-formedness),Passed,00:00:00.0124049,7346,3
ExtractPsf.ConstantSum (correctness),Passed,00:00:00.0123385,13469,3
PsfOtf.LineBaseNext (correctness),Passed,00:00:00.0123242,18248,3
Noise.Mass (well-formedness),Passed,00:00:00.0123122,7129,3
ExtractPsf.NothingSelected (well-formedness),Passed,00:00:00.0123056,16886,3
Noise.CountWithin (correctness),Passed,00:00:00.0122092,15622,3
PyNum.ModUnique (well-formedness),Passed,00:00:00.0121663,5106,3
PsfOtf.Unshift (well-formedness),Passed,00:00:00.0120482,8388,3
PyStr.Join (well-formedness),Passed,00:00:00.0119926,15006,3
ReadXml.RoundHalfAway (well-formedness),Passed,00:00:00.0119060,18119,3
FileNames.SortedByTime (well-formedness),Passed,00:00:00.0118298,13122,3
ExpandShape.OddShrinkMismatches (well-formedness),Passed,00:00:00.0118050,24052,3
FiniteDiff.QuotientBounded (correctness),Passed,00:00:00.0116331,13859,3
ExtractPsf.DivBelow (well-formedness),Passed,00:00:00.0116092,3753,3
FileNames.FirstFieldWhole (correctness),Passed,00:00:00.0115612,22469,3
BeadPsf.LargestExtentIsMax (well-formedness),Passed,00:00:00.0115457,24373,3
PyNum.ModUnique (correctness),Passed,00:00:00.0114973,18192,3
LambdaCallback.CapIsOneLater (correctness),Passed,00:00:00.0114458,14323,3
PsfOtf.MulMono (correctness),Passed,00:00:00.0113786,4193,3
PyNum.SumZeroAllZero (well-formedness),Passed,00:00:00.0112925,12065,3
DeconvolveApi.ScaledNonZero (correctness),Passed,00:00:00.0112840,10193,3
PyNum.SumSingle (correctness),Passed,00:00:00.0112395,8815,3
ExtractPsf.ConstantSum (well-formedness),Passed,00:00:00.0112271,9002,3
PsfOtf.GetInd (well-formedness),Passed,00:00:00.0112029,10714,3
ReadXml.BlockSize (well-formedness),Passed,00:00:00.0111366,17104,3
DeconvolveApi.CancelFactor (well-formedness),Passed,00:00:00.0111102,3450,3
Noise.UnitGainCounts (correctness),Passed,00:00:00.0110687,13991,3
PsfOtf.DivBelow (correctness),Passed,00:00:00.0110622,12653,3
ReadXml.FixedIndices (well-formedness),Passed,00:00:00.0110576,17501,3
Noise.CollapsedReBins (well-formedness),Passed,00:00:00.0110408,13906,3
ExtractPsf.GridDistSq (well-formedness),Passed,00:00:00.0109694,9925,3
Images.SqDistToZeroIff (well-formedness),Passed,00:00:00.0109614,13400,3
PyNum.Ceil (well-formedness),Passed,00:00:00.0109054,5219,3
Images.SoFarIsStats (well-formedness),Passed,00:00:00.0108695,25184,3
PsfOtf.FlatIndexInLine (correctness),Passed,00:00:00.0108467,20058,3
PyNum.SumNonNegative (well-formedness),Passed,00:00:00.0108175,9130,3
BeadPsf.OddUp (well-formedness),Passed,00:00:00.0107920,11748,3
FiniteDiff.Added (well-formedness),Passed,00:00:00.0107801,9924,3
Images.StatsSoFar (well-formedness),Passed,00:00:00.0107396,21252,3
BeadPsf.Footprint (well-formedness),Passed,00:00:00.0106985,10427,3
Noise.CountTotal (well-formedness),Passed,00:00:00.0106945,14636,3
PyStr.ZerosValue (well-formedness),Passed,00:00:00.0106336,14824,3
BeadPsf.ReprWithoutFilter (correctness),Passed,00:00:00.0105708,11347,3
FftwSettings.ImageSettings.SameShared (well-formedness),Passed,00:00:00.0105656,12339,3
Images.SqDistAppend (well-formedness),Passed,00:00:00.0105202,12527,3
PsfOtf.CentreToOrigin (correctness),Passed,00:00:00.0105015,10694,3
BeadPsf.ReprWithoutFilter (well-formedness),Passed,00:00:00.0104959,11092,3
ExtractPsf.Mean (well-formedness),Passed,00:00:00.0104903,9402,3
ReadXml.BlockEnd (well-formedness),Passed,00:00:00.0104481,4426,3
Images.SqDistTo (well-formedness),Passed,00:00:00.0104333,12001,3
LambdaCallback.TiesStopOnlyHere (well-formedness),Passed,00:00:00.0104191,19711,3
PyNum.Abs (well-formedness),Passed,00:00:00.0103274,6077,3
Noise.CountWithin (well-formedness),Passed,00:00:00.0103141,10040,3
ExtractPsf.Sized (well-formedness),Passed,00:00:00.0102879,13327,3
Images.MinModSymmetric (correctness),Passed,00:00:00.0102714,10066,3
PyNum.SumBounds (well-formedness),Passed,00:00:00.0102102,9545,3
FftwSettings.InitIdempotent (correctness),Passed,00:00:00.0101712,10249,3
ReadXml.AsShape (well-formedness),Passed,00:00:00.0101334,9218,3
FftwSettings.InitIdempotent (well-formedness),Passed,00:00:00.0101258,11453,3
PsfOtf.LerpBetween (correctness),Passed,00:00:00.0101109,19685,3
BeadPsf.AllShaped (well-formedness),Passed,00:00:00.0100946,18831,3
PsfOtf.CentresCoincide (well-formedness),Passed,00:00:00.0100678,7478,3
Noise.CountAll (well-formedness),Passed,00:00:00.0100668,9875,3
LambdaCallback.Min3 (well-formedness),Passed,00:00:00.0099604,8047,3
PyNum.DivBack (correctness),Passed,00:00:00.0097790,3300,3
ReadXml.Origin (well-formedness),Passed,00:00:00.0097685,9327,3
ExtractPsf.OddHalf (well-formedness),Passed,00:00:00.0097246,4943,3
ExtractPsf.AtMostOne (well-formedness),Passed,00:00:00.0097144,15712,3
FiniteDiff.Ends (well-formedness),Passed,00:00:00.0096928,7367,3
PsfOtf.Shift (well-formedness),Passed,00:00:00.0096536,8314,3
FileNames.PathJoin (well-formedness),Passed,00:00:00.0096111,10058,3
BeadPsf.CropRange (well-formedness),Passed,00:00:00.0096020,12686,3
DeconvolveApi.Deconvolve.MaxIterations (well-formedness),Passed,00:00:00.0095438,9599,3
Noise.HalfShareTwice (correctness),Passed,00:00:00.0095395,7257,3
PyNum.SqZero (correctness),Passed,00:00:00.0095303,5132,3
PsfOtf.CentreToOrigin (well-formedness),Passed,00:00:00.0095168,7467,3
PsfOtf.ShiftBijection (well-formedness),Passed,00:00:00.0094865,9085,3
ReadXml.AxialResolution (well-formedness),Passed,00:00:00.0094814,5340,3
Images.SqDistZeroIff (well-formedness),Passed,00:00:00.0094749,11015,3
Noise.ShareWhole (well-formedness),Passed,00:00:00.0094423,4989,3
PsfOtf.Accumulate (well-formedness),Passed,00:00:00.0094231,15845,3
FftwSettings.NewHandlersInvalidate (well-formedness),Passed,00:00:00.0093720,9637,3
ReadXml.OddMax (well-formedness),Passed,00:00:00.0093539,11302,3
Noise.UnitGainCounts (well-formedness),Passed,00:00:00.0093533,8772,3
Noise.DivBelowOne (well-formedness),Passed,00:00:00.0093509,4433,3
PyNum.RoundHalfEvenUnique (well-formedness),Passed,00:00:00.0093491,7131,3
Noise.PoissonGain (well-formedness),Passed,00:00:00.0093052,14942,3
DeconvolvePriv.Pushed (well-formedness),Passed,00:00:00.0092983,15333,3
LambdaCallback.CapIsOneLater (well-formedness),Passed,00:00:00.0092837,14447,3
Noise.LastBinCounts (well-formedness),Passed,00:00:00.0091807,9451,3
Images.LastDim (well-formedness),Passed,00:00:00.0091794,12749,3
PsfOtf.LineBase (well-formedness),Passed,00:00:00.0091499,8831,3
Images.SqDistToPrefix (well-formedness),Passed,00:00:00.0091285,12977,3
PyStr.AllDigits (well-formedness),Passed,00:00:00.0090416,10965,3
NdArray.Volume (well-formedness),Passed,00:00:00.0090071,8357,3
PyNum.DivBack (well-formedness),Passed,00:00:00.0089875,3064,3
LambdaCallback.FromEnd (well-formedness),Passed,00:00:00.0089456,6716,3
PyNum.SumZeroOfZeros (correctness),Passed,00:00:00.0088388,13305,3
Images.Image.SameDims (well-formedness),Passed,00:00:00.0087588,10968,3
Images.Rows (well-formedness),Passed,00:00:00.0086004,7009,3
ReadXml.FixSteps (well-formedness),Passed,00:00:00.0085374,11102,3
FftwSettings.ImageSettings.Same (well-formedness),Passed,00:00:00.0084238,8375,3
ExtractPsf.DualParabola (well-formedness),Passed,00:00:00.0083691,6721,3
PyNum.MinInt (well-formedness),Passed,00:00:00.0083101,5369,3
Images.SqDistConcat (well-formedness),Passed,00:00:00.0082664,12794,3
PlaneRanges.AllSized (well-formedness),Passed,00:00:00.0082064,8032,3
Noise.RoundMonotone (correctness),Passed,00:00:00.0080871,17127,3
PyStr.JoinLastShorter (well-formedness),Passed,00:00:00.0080574,12209,3
Noise.DivAddOne (correctness),Passed,00:00:00.0079558,7202,3
Noise.ReBin (well-formedness),Passed,00:00:00.0079194,6879,3
ReadXml.Shift (well-formedness),Passed,00:00:00.0078789,4349,3
ReadXml.LateralResolution (well-formedness),Passed,00:00:00.0078162,5314,3
ExtractPsf.DivSelf (correctness),Passed,00:00:00.0077766,3938,3
Noise.Share (well-formedness),Passed,00:00:00.0076936,4687,3
ExtractPsf.Clip (well-formedness),Passed,00:00:00.0076263,5364,3
Noise.HalfShare (well-formedness),Passed,00:00:00.0076145,4725,3
BeadPsf.AxisAccepted (well-formedness),Passed,00:00:00.0076065,5836,3
FiniteDiff.ZeroOver (well-formedness),Passed,00:00:00.0075437,3552,3
PyStr.EndsWith (well-formedness),Passed,00:00:00.0075035,8237,3
ExtractPsf.DivBelow (correctness),Passed,00:00:00.0074456,3966,3
Images.RowStart (well-formedness),Passed,00:00:00.0074352,9972,3
Noise.CountAbove (well-formedness),Passed,00:00:00.0073782,9620,3
ExtractPsf.Drop (well-formedness),Passed,00:00:00.0073667,4780,3
ExtractPsf.PositiveProduct (correctness),Passed,00:00:00.0073475,4530,3
ExtractPsf.OddForm (correctness),Passed,00:00:00.0073169,6216,3
PyNum.SumZeroOfZeros (well-formedness),Passed,00:00:00.0073035,9130,3
ExtractPsf.DropAll (well-formedness),Passed,00:00:00.0072332,5686,3
Noise.ShareAdd (correctness),Passed,00:00:00.0072210,9665,3
FiniteDiff.SquareGrows (correctness),Passed,00:00:00.0071848,6707,3
BeadPsf.RelativeCut (well-formedness),Passed,00:00:00.0071602,10857,3
PyNum.MaxInt (well-formedness),Passed,00:00:00.0070307,5369,3
SliceSpec.NoBrackets (well-formedness),Passed,00:00:00.0070270,11068,3
DeconvolveApi.Deconvolve.MaxIterations (correctness),Passed,00:00:00.0069202,8743,3
Noise.HalfShareTwice (well-formedness),Passed,00:00:00.0068671,5830,3
FiniteDiff.ZeroOver (correctness),Passed,00:00:00.0068586,4163,3
FftwSettings.FftwState._ctor (correctness),Passed,00:00:00.0067797,7662,3
DeconvolveApi.Deconvolve.Regularized (well-formedness),Passed,00:00:00.0067320,8823,3
DeconvolvePriv.LambdaDeclined (well-formedness),Passed,00:00:00.0066671,8267,3
Noise.PhotonValueMonotone (well-formedness),Passed,00:00:00.0066445,9230,3
Images.Image.Allocated (well-formedness),Passed,00:00:00.0065836,8037,3
DeconvolveApi.Deconvolve.Regularized (correctness),Passed,00:00:00.0065628,8013,3
BeadPsf.IsOdd (well-formedness),Passed,00:00:00.0064108,4326,3
FiniteDiff.QuotientBounded (well-formedness),Passed,00:00:00.0063814,4224,3
PlaneRanges.MulSucc (correctness),Passed,00:00:00.0063427,3204,3
FiniteDiff.ScaleGrows (correctness),Passed,00:00:00.0063331,3688,3
DeconvolvePriv.DefaultMaxIterations (well-formedness),Passed,00:00:00.0062775,3752,3
FiniteDiff.Sign (well-formedness),Passed,00:00:00.0062719,5989,3
ExtractPsf.DivSelf (well-formedness),Passed,00:00:00.0062581,3552,3
Noise.DivAddOne (well-formedness),Passed,00:00:00.0060568,3282,3
FiniteDiff.SafeQuotient (well-formedness),Passed,00:00:00.0060088,4681,3
FiniteDiff.MinReal (well-formedness),Passed,00:00:00.0058593,5369,3
Noise.TruncStep (correctness),Passed,00:00:00.0058283,6390,3
BeadPsf.DivBetween (correctness),Passed,00:00:00.0057787,4316,3
Noise.DivBelowOne (correctness),Passed,00:00:00.0057173,4790,3
ExtractPsf.InPx (well-formedness),Passed,00:00:00.0055919,4685,3
Images.RowBelow (well-formedness),Passed,00:00:00.0055394,4269,3
PyNum.MulAtLeast (correctness),Passed,00:00:00.0055233,4035,3
ExtractPsf.OddHalf (correctness),Passed,00:00:00.0055224,5915,3
DeconvolvePriv.LambdaStackSize (well-formedness),Passed,00:00:00.0052877,3752,3
FiniteDiff.SquareNonNegative (correctness),Passed,00:00:00.0051803,3953,3
LambdaCallback.LastIteration (well-formedness),Passed,00:00:00.0049556,3751,3
